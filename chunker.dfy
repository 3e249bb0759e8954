/** The document chunker: splits text into paragraph units (or sentence units when a
    paragraph is longer than the chunk size), packs the units into a buffer, flushes the
    buffer as a chunk when the next unit would make it too long, and reseeds the buffer
    with the last `overlap` characters of what was flushed. */
module Chunker {
  import opened Text
  import opened Common

  // ---------------------------------------------------------------------------------
  // Paragraphs: text.split(/\n\s*\n/).map(trim).filter(Boolean)
  // ---------------------------------------------------------------------------------

  /** The index of the last line feed in the white-space run that starts at `j`
      (the greedy `\s*\n` part of the paragraph separator), or `found` if the run has none. */
  function LastLineFeedInRun(s: string, j: nat, found: Option<nat>): (r: Option<nat>)
    requires j <= |s|
    requires found.Some? ==> found.value < j
    ensures r.Some? ==> r.value < |s| && (r == found || j <= r.value)
    decreases |s| - j
  {
    if j < |s| && IsSpace(s[j]) then
      LastLineFeedInRun(s, j + 1, if s[j] == '\n' then Some(j) else found)
    else
      found
  }

  /** `s[start..].split(/\n\s*\n/)`, scanning for the next separator from index `i`. */
  function SplitBlankLinesFrom(s: string, start: nat, i: nat): (r: seq<string>)
    requires start <= i <= |s|
    ensures |r| >= 1
    decreases |s| - i
  {
    if i == |s| then
      [s[start..]]
    else if s[i] == '\n' && LastLineFeedInRun(s, i + 1, None).Some? then
      var e := LastLineFeedInRun(s, i + 1, None).value;
      [s[start..i]] + SplitBlankLinesFrom(s, e + 1, e + 1)
    else
      SplitBlankLinesFrom(s, start, i + 1)
  }

  /** JavaScript's `s.split(/\n\s*\n/)`. */
  function SplitBlankLines(s: string): seq<string> {
    SplitBlankLinesFrom(s, 0, 0)
  }

  /** `pieces.map((p) => p.trim()).filter(Boolean)`. */
  function TrimmedNonEmpty(pieces: seq<string>): (r: seq<string>)
    ensures |r| <= |pieces|
    ensures forall k :: 0 <= k < |r| ==> r[k] != [] && IsTrimmed(r[k])
  {
    if pieces == [] then
      []
    else
      TrimIsSlice(pieces[0]);
      var p := Trim(pieces[0]);
      (if p == [] then [] else [p]) + TrimmedNonEmpty(pieces[1..])
  }

  /** The paragraphs of `text`: the pieces between blank lines, trimmed, empty ones dropped. */
  function Paragraphs(text: string): seq<string> {
    TrimmedNonEmpty(SplitBlankLines(text))
  }

  /** Paragraphs are never empty, and have no white space at either end. */
  lemma ParagraphsTrimmed(text: string)
    ensures forall k :: 0 <= k < |Paragraphs(text)| ==> Paragraphs(text)[k] != [] && IsTrimmed(Paragraphs(text)[k])
  {
    var r := TrimmedNonEmpty(SplitBlankLines(text));
  }

  // ---------------------------------------------------------------------------------
  // Sentences of a long paragraph
  // ---------------------------------------------------------------------------------

  /** The characters that end a sentence. */
  predicate IsTerminator(c: char) {
    c == '.' || c == '!' || c == '?' || c == '\n'
  }

  /** The end of the run that starts at `i` of characters that are terminators
      (`term`) or non-terminators (`!term`). */
  function RunEnd(p: string, i: nat, term: bool): (k: nat)
    requires i <= |p|
    ensures i <= k <= |p|
    ensures forall m :: i <= m < k ==> IsTerminator(p[m]) == term
    ensures k < |p| ==> IsTerminator(p[k]) != term
    decreases |p| - i
  {
    if i < |p| && IsTerminator(p[i]) == term then RunEnd(p, i + 1, term) else i
  }

  /** The matches of `/[^.!?\n]+[.!?\n]+/g` in `p` from index `i`, as the code has it:
      a stretch of non-terminators counts only when terminators follow it. */
  function RegexSentencesFrom(p: string, i: nat): seq<string>
    requires i <= |p|
    decreases |p| - i
  {
    if i == |p| then
      []
    else if IsTerminator(p[i]) then
      RegexSentencesFrom(p, i + 1)
    else
      var k := RunEnd(p, i, false);
      if k == |p| then []
      else
        var e := RunEnd(p, k, true);
        [p[i..e]] + RegexSentencesFrom(p, e)
  }

  /** `para.match(/[^.!?\n]+[.!?\n]+/g) || [para]`, as written. */
  function SentencesAsWritten(p: string): seq<string> {
    var m := RegexSentencesFrom(p, 0);
    if m == [] then [p] else m
  }

  /** Concatenation of a list of strings. */
  function Concat(ss: seq<string>): string {
    if ss == [] then [] else ss[0] + Concat(ss[1..])
  }

  /** As written, the sentence split loses the text after the last terminator of a long
      paragraph: "a. b" is split into the single sentence "a.", and " b" is never chunked. */
  lemma SentencesAsWrittenDropTail()
    ensures SentencesAsWritten("a. b") == ["a."]
    ensures Concat(SentencesAsWritten("a. b")) != "a. b"
  {
    var p := "a. b";
    assert RunEnd(p, 3, false) == 4;
    assert RunEnd(p, 2, false) == 4;
    assert RegexSentencesFrom(p, 2) == [];
    assert RunEnd(p, 2, true) == 2;
    assert RunEnd(p, 1, true) == 2;
    assert RunEnd(p, 1, false) == 1;
    assert RunEnd(p, 0, false) == 1;
    assert p[0..2] == "a.";
    assert RegexSentencesFrom(p, 0) == ["a."];
    assert Concat(["a."]) == "a.";
  }

  /** The pieces of `p` from index `i`, each ending after a run of terminators (the
      last piece may have none): the sentences of `/[^.!?\n]*[.!?\n]+|[^.!?\n]+/g`. */
  function SentencePiecesFrom(p: string, i: nat): (r: seq<string>)
    requires i <= |p|
    ensures Concat(r) == p[i..]
    ensures forall k :: 0 <= k < |r| ==> r[k] != []
    decreases |p| - i
  {
    if i == |p| then
      []
    else
      var e := RunEnd(p, RunEnd(p, i, false), true);
      var rest := SentencePiecesFrom(p, e);
      assert p[i..] == p[i..e] + p[e..];
      [p[i..e]] + rest
  }

  /** The sentence units of a long paragraph: every character of the paragraph is in
      exactly one sentence, in order, and a paragraph without terminators is one sentence. */
  function Sentences(p: string): (r: seq<string>)
    ensures p != [] ==> Concat(r) == p
    ensures forall k :: 0 <= k < |r| ==> r[k] != []  || p == []
  {
    var m := SentencePiecesFrom(p, 0);
    assert p[0..] == p;
    if m == [] then [p] else m
  }

  // ---------------------------------------------------------------------------------
  // Units and packing
  // ---------------------------------------------------------------------------------

  /** One packing unit: `raw` is the text the flush test measures, `piece` the text
      appended to the buffer (a sentence is measured untrimmed and appended trimmed). */
  datatype Unit = Unit(raw: string, piece: string)

  function SentenceUnits(ss: seq<string>): (r: seq<Unit>)
    ensures |r| == |ss|
    ensures forall k :: 0 <= k < |r| ==> r[k] == Unit(ss[k], Trim(ss[k]))
  {
    if ss == [] then [] else [Unit(ss[0], Trim(ss[0]))] + SentenceUnits(ss[1..])
  }

  /** The units one paragraph contributes: itself when it fits the chunk size, else its sentences. */
  function ParagraphUnits(para: string, chunkSize: int): seq<Unit> {
    if |para| > chunkSize then SentenceUnits(Sentences(para)) else [Unit(para, para)]
  }

  function UnitsOf(paras: seq<string>, chunkSize: int): seq<Unit> {
    if paras == [] then [] else ParagraphUnits(paras[0], chunkSize) + UnitsOf(paras[1..], chunkSize)
  }

  /** All units of `text`, in document order. */
  function Units(text: string, chunkSize: int): seq<Unit> {
    UnitsOf(Paragraphs(text), chunkSize)
  }

  /** The chunker's loop state: the buffer (`currentChunk`) and the chunks emitted so far. */
  datatype Packing = Packing(buffer: string, chunks: seq<string>)

  /** What the buffer becomes after a flush: its last `overlap` characters when it is longer
      than that and `overlap` is positive, otherwise empty. */
  function Reseed(buffer: string, overlap: int): string {
    if overlap > 0 && |buffer| > overlap then buffer[|buffer| - overlap..] else ""
  }

  /** Whether adding unit `u` flushes the buffer first. */
  predicate Flushes(buffer: string, u: Unit, chunkSize: int) {
    |Trim(buffer + " " + u.raw)| > chunkSize && buffer != ""
  }

  /** One iteration of either inner loop body of the chunker. */
  function Step(st: Packing, u: Unit, chunkSize: int, overlap: int): Packing {
    var flush := Flushes(st.buffer, u, chunkSize);
    var b := if flush then Reseed(st.buffer, overlap) else st.buffer;
    var c := if flush then st.chunks + [Trim(st.buffer)] else st.chunks;
    Packing(b + (if b != "" then " " else "") + u.piece, c)
  }

  function Pack(st: Packing, us: seq<Unit>, chunkSize: int, overlap: int): Packing
    decreases |us|
  {
    if us == [] then st else Pack(Step(st, us[0], chunkSize, overlap), us[1..], chunkSize, overlap)
  }

  /** The final flush of a non-empty buffer. */
  function Finish(st: Packing): seq<string> {
    if st.buffer != "" then st.chunks + [Trim(st.buffer)] else st.chunks
  }

  /** The chunks of `text`: the packing of all its units, starting from an empty buffer. */
  function Chunks(text: string, chunkSize: int, overlap: int): seq<string> {
    if text == "" then [] else Finish(Pack(Packing("", []), Units(text, chunkSize), chunkSize, overlap))
  }

  // ---------------------------------------------------------------------------------
  // The chunker itself
  // ---------------------------------------------------------------------------------

  /** Packing two lists of units one after the other is packing their concatenation. */
  lemma {:induction false} PackSplit(st: Packing, a: seq<Unit>, b: seq<Unit>, chunkSize: int, overlap: int)
    ensures Pack(st, a + b, chunkSize, overlap) == Pack(Pack(st, a, chunkSize, overlap), b, chunkSize, overlap)
    decreases |a|
  {
    if a == [] {
      assert a + b == b;
    } else {
      assert (a + b)[0] == a[0];
      assert (a + b)[1..] == a[1..] + b;
      PackSplit(Step(st, a[0], chunkSize, overlap), a[1..], b, chunkSize, overlap);
    }
  }

  /** Packing the units of the paragraphs from `i` on is packing those of paragraph `i`,
      then those of the paragraphs after it. */
  lemma PackParagraph(st: Packing, paragraphs: seq<string>, i: nat, chunkSize: int, overlap: int)
    requires i < |paragraphs|
    ensures Pack(st, UnitsOf(paragraphs[i..], chunkSize), chunkSize, overlap)
            == Pack(Pack(st, ParagraphUnits(paragraphs[i], chunkSize), chunkSize, overlap), UnitsOf(paragraphs[i + 1..], chunkSize), chunkSize, overlap)
  {
    assert paragraphs[i..][1..] == paragraphs[i + 1..];
    PackSplit(st, ParagraphUnits(paragraphs[i], chunkSize), UnitsOf(paragraphs[i + 1..], chunkSize), chunkSize, overlap);
  }

  /** The body both loops of `chunkText` share: flush the buffer when adding `raw` would
      grow it past `chunkSize`, reseed it with the overlap, then append `piece`. */
  method AddUnit(current: string, chunks: seq<string>, raw: string, piece: string, chunkSize: int, overlap: int)
    returns (current': string, chunks': seq<string>)
    ensures Packing(current', chunks') == Step(Packing(current, chunks), Unit(raw, piece), chunkSize, overlap)
  {
    current', chunks' := current, chunks;
    if |Trim(current' + " " + raw)| > chunkSize {
      if current' != "" {
        chunks' := chunks' + [Trim(current')];
        if overlap > 0 && |current'| > overlap {
          current' := current'[|current'| - overlap..];
        } else {
          current' := "";
        }
      }
    }
    current' := current' + (if current' != "" then " " else "") + piece;
  }

  /** The inner loop of `chunkText`: pack the sentences of one long paragraph. */
  method PackSentences(current0: string, chunks0: seq<string>, sentences: seq<string>, chunkSize: int, overlap: int)
    returns (current: string, chunks: seq<string>)
    ensures Packing(current, chunks) == Pack(Packing(current0, chunks0), SentenceUnits(sentences), chunkSize, overlap)
  {
    current, chunks := current0, chunks0;
    var j := 0;
    assert sentences[0..] == sentences;
    while j < |sentences|
      invariant 0 <= j <= |sentences|
      invariant Pack(Packing(current, chunks), SentenceUnits(sentences[j..]), chunkSize, overlap)
             == Pack(Packing(current0, chunks0), SentenceUnits(sentences), chunkSize, overlap)
    {
      var sentence := sentences[j];
      assert sentences[j..][1..] == sentences[j + 1..];
      current, chunks := AddUnit(current, chunks, sentence, Trim(sentence), chunkSize, overlap);
      j := j + 1;
    }
  }

  /** `chunkText(text, chunkSize, overlap)`. */
  method ChunkText(text: string, chunkSize: int, overlap: int) returns (chunks: seq<string>)
    ensures chunks == Chunks(text, chunkSize, overlap)
  {
    if text == "" {
      return [];
    }
    var paragraphs := Paragraphs(text);
    ghost var spec := Chunks(text, chunkSize, overlap);
    chunks := [];
    var current := "";
    var i := 0;
    assert paragraphs[0..] == paragraphs;
    while i < |paragraphs|
      invariant 0 <= i <= |paragraphs|
      invariant Finish(Pack(Packing(current, chunks), UnitsOf(paragraphs[i..], chunkSize), chunkSize, overlap)) == spec
    {
      var para := paragraphs[i];
      PackParagraph(Packing(current, chunks), paragraphs, i, chunkSize, overlap);
      if |para| > chunkSize {
        // A paragraph that is too long is packed sentence by sentence.
        current, chunks := PackSentences(current, chunks, Sentences(para), chunkSize, overlap);
      } else {
        current, chunks := AddUnit(current, chunks, para, para, chunkSize, overlap);
      }
      i := i + 1;
    }
    if current != "" {
      chunks := chunks + [Trim(current)];
    }
  }

  // ---------------------------------------------------------------------------------
  // What the chunks are
  // ---------------------------------------------------------------------------------

  /** Every unit appends a trimmed piece: a paragraph is trimmed already, a sentence is trimmed
      before it is appended. */
  lemma {:induction false} UnitsOfTrimmed(paras: seq<string>, chunkSize: int)
    requires forall k :: 0 <= k < |paras| ==> IsTrimmed(paras[k])
    ensures forall k :: 0 <= k < |UnitsOf(paras, chunkSize)| ==> IsTrimmed(UnitsOf(paras, chunkSize)[k].piece)
  {
    if paras != [] {
      var us := ParagraphUnits(paras[0], chunkSize);
      forall k | 0 <= k < |us| ensures IsTrimmed(us[k].piece) {
        if |paras[0]| > chunkSize {
          TrimIsSlice(Sentences(paras[0])[k]);
        }
      }
      UnitsOfTrimmed(paras[1..], chunkSize);
    }
  }

  lemma UnitsTrimmed(text: string, chunkSize: int)
    ensures forall k :: 0 <= k < |Units(text, chunkSize)| ==> IsTrimmed(Units(text, chunkSize)[k].piece)
  {
    ParagraphsTrimmed(text);
    UnitsOfTrimmed(Paragraphs(text), chunkSize);
  }

  /** The chunks packed so far stay at the front of the result. */
  lemma {:induction false} PackKeepsChunks(st: Packing, us: seq<Unit>, chunkSize: int, overlap: int)
    ensures |st.chunks| <= |Finish(Pack(st, us, chunkSize, overlap))|
    ensures Finish(Pack(st, us, chunkSize, overlap))[..|st.chunks|] == st.chunks
    decreases |us|
  {
    if us != [] {
      var st' := Step(st, us[0], chunkSize, overlap);
      PackKeepsChunks(st', us[1..], chunkSize, overlap);
      assert st'.chunks[..|st.chunks|] == st.chunks;
    }
  }

  /** Each unit adds at most one chunk, and a buffer only becomes a chunk once it holds text. */
  lemma {:induction false} PackCount(st: Packing, us: seq<Unit>, chunkSize: int, overlap: int)
    ensures |Finish(Pack(st, us, chunkSize, overlap))| <= |st.chunks| + (if st.buffer != "" then 1 else 0) + |us|
    decreases |us|
  {
    if us != [] {
      PackCount(Step(st, us[0], chunkSize, overlap), us[1..], chunkSize, overlap);
    }
  }

  /** There are never more chunks than units: the first unit cannot flush the empty buffer,
      and every later unit flushes at most once. */
  lemma ChunkCountAtMostUnits(text: string, chunkSize: int, overlap: int)
    ensures |Chunks(text, chunkSize, overlap)| <= |Units(text, chunkSize)|
  {
    if text != "" {
      PackCount(Packing("", []), Units(text, chunkSize), chunkSize, overlap);
    }
  }

  lemma {:induction false} PackTrimmed(st: Packing, us: seq<Unit>, chunkSize: int, overlap: int)
    requires forall k :: 0 <= k < |st.chunks| ==> IsTrimmed(st.chunks[k])
    ensures forall k :: 0 <= k < |Finish(Pack(st, us, chunkSize, overlap))|
                        ==> IsTrimmed(Finish(Pack(st, us, chunkSize, overlap))[k])
    decreases |us|
  {
    TrimIsSlice(st.buffer);
    if us != [] {
      PackTrimmed(Step(st, us[0], chunkSize, overlap), us[1..], chunkSize, overlap);
    }
  }

  /** Every chunk is a trimmed buffer. */
  lemma ChunksTrimmed(text: string, chunkSize: int, overlap: int)
    ensures forall k :: 0 <= k < |Chunks(text, chunkSize, overlap)| ==> IsTrimmed(Chunks(text, chunkSize, overlap)[k])
  {
    if text != "" {
      PackTrimmed(Packing("", []), Units(text, chunkSize), chunkSize, overlap);
    }
  }

  /** `t` is found in one of the chunks `cs`. */
  predicate InSomeChunk(cs: seq<string>, t: string) {
    exists k | 0 <= k < |cs| :: Contains(cs[k], t)
  }

  /** Text that is in the buffer ends up in some chunk: the buffer is only ever appended to
      until it is flushed, and the final buffer is flushed when it is not empty. */
  lemma {:induction false} PackKeepsBufferText(st: Packing, us: seq<Unit>, chunkSize: int, overlap: int, t: string)
    requires t != [] && IsTrimmed(t) && Contains(st.buffer, t)
    ensures InSomeChunk(Finish(Pack(st, us, chunkSize, overlap)), t)
    decreases |us|
  {
    var r := Finish(Pack(st, us, chunkSize, overlap));
    if us == [] {
      ContainsTrim(st.buffer, t);
      assert r[|r| - 1] == Trim(st.buffer);
    } else {
      var u := us[0];
      var st' := Step(st, u, chunkSize, overlap);
      if Flushes(st.buffer, u, chunkSize) {
        ContainsTrim(st.buffer, t);
        PackKeepsChunks(st', us[1..], chunkSize, overlap);
        assert r[|st.chunks|] == st'.chunks[|st.chunks|] == Trim(st.buffer);
      } else {
        ContainsExtend([], st.buffer, " " + u.piece, t);
        assert [] + st.buffer + (" " + u.piece) == st'.buffer;
        PackKeepsBufferText(st', us[1..], chunkSize, overlap, t);
      }
    }
  }

  /** A unit's piece is in the buffer right after the unit is added. */
  lemma StepHoldsPiece(st: Packing, u: Unit, chunkSize: int, overlap: int)
    ensures Contains(Step(st, u, chunkSize, overlap).buffer, u.piece)
  {
    var b := if Flushes(st.buffer, u, chunkSize) then Reseed(st.buffer, overlap) else st.buffer;
    var sep := if b != "" then " " else "";
    ContainsSelf(u.piece);
    ContainsExtend(b + sep, u.piece, [], u.piece);
    assert (b + sep) + u.piece + [] == Step(st, u, chunkSize, overlap).buffer;
  }

  lemma PackKeepsUnit(st: Packing, us: seq<Unit>, chunkSize: int, overlap: int, k: nat)
    requires k < |us| && us[k].piece != "" && IsTrimmed(us[k].piece)
    ensures InSomeChunk(Finish(Pack(st, us, chunkSize, overlap)), us[k].piece)
  {
    var u := us[k];
    assert us == us[..k] + ([u] + us[k + 1..]);
    PackSplit(st, us[..k], [u] + us[k + 1..], chunkSize, overlap);
    var sk := Pack(st, us[..k], chunkSize, overlap);
    assert ([u] + us[k + 1..])[1..] == us[k + 1..];
    StepHoldsPiece(sk, u, chunkSize, overlap);
    PackKeepsBufferText(Step(sk, u, chunkSize, overlap), us[k + 1..], chunkSize, overlap, u.piece);
  }

  lemma NoUnitsInEmptyText(chunkSize: int)
    ensures Units("", chunkSize) == []
  {
    assert SplitBlankLines("") == [""];
    assert Trim("") == "";
  }

  /** Nothing is lost: the text of every unit is found, whole, in some chunk. */
  lemma UnitTextIsChunked(text: string, chunkSize: int, overlap: int, k: nat)
    requires k < |Units(text, chunkSize)| && Units(text, chunkSize)[k].piece != ""
    ensures InSomeChunk(Chunks(text, chunkSize, overlap), Units(text, chunkSize)[k].piece)
  {
    NoUnitsInEmptyText(chunkSize);
    UnitsTrimmed(text, chunkSize);
    PackKeepsUnit(Packing("", []), Units(text, chunkSize), chunkSize, overlap, k);
  }

  /** Trimming a string that starts with `seed` keeps the trimmed `seed`. */
  lemma ContainsTrimmedPrefix(seed: string, s: string)
    requires seed <= s
    ensures Contains(Trim(s), Trim(seed))
  {
    if Trim(seed) == [] {
      assert OccursAt(Trim(s), Trim(seed), 0);
    } else {
      TrimIsSlice(seed);
      var o := TrimOffset(seed);
      assert s[o..o + |Trim(seed)|] == seed[o..o + |Trim(seed)|];
      assert OccursAt(s, Trim(seed), o);
      ContainsTrim(s, Trim(seed));
    }
  }

  /** The buffers that `Pack` flushes from `st` over `us`, followed by the final buffer
      when it is not empty: the buffers whose trimmed text `Finish` emits as chunks. */
  function FlushedFrom(st: Packing, us: seq<Unit>, chunkSize: int, overlap: int): seq<string>
    decreases |us|
  {
    if us == [] then
      if st.buffer != "" then [st.buffer] else []
    else
      FlushedBy(st, us[0], chunkSize) + FlushedFrom(Step(st, us[0], chunkSize, overlap), us[1..], chunkSize, overlap)
  }

  /** The buffer that adding unit `u` flushes, if it flushes one. */
  function FlushedBy(st: Packing, u: Unit, chunkSize: int): seq<string> {
    if Flushes(st.buffer, u, chunkSize) then [st.buffer] else []
  }

  /** The value `currentChunk` had at each `chunks.push` of `chunkText(text, chunkSize, overlap)`. */
  function FlushedBuffers(text: string, chunkSize: int, overlap: int): seq<string> {
    if text == "" then [] else FlushedFrom(Packing("", []), Units(text, chunkSize), chunkSize, overlap)
  }

  /** Chunk `j` is the trimmed buffer `bs[j]`. */
  predicate TrimsOf(cs: seq<string>, bs: seq<string>) {
    |bs| == |cs| && forall j {:trigger cs[j]} :: 0 <= j < |cs| ==> cs[j] == Trim(bs[j])
  }

  /** Each chunk after the first holds the trimmed overlap that the buffer before it,
      `bs[j - 1]`, reseeded the buffer with. */
  predicate CarriesOverlap(cs: seq<string>, bs: seq<string>, overlap: int) {
    |bs| == |cs| && forall j {:trigger cs[j]} :: 1 <= j < |cs| ==> Contains(cs[j], Trim(Reseed(bs[j - 1], overlap)))
  }

  predicate ChunksOverlap(cs: seq<string>, bs: seq<string>, overlap: int) {
    TrimsOf(cs, bs) && CarriesOverlap(cs, bs, overlap)
  }

  lemma AppendEmpty(a: seq<string>)
    ensures a + [] == a
  {
  }

  lemma AppendAssoc(a: seq<string>, b: seq<string>, c: seq<string>)
    ensures a + b + c == a + (b + c)
  {
  }

  /** One step of `Pack` and of `FlushedFrom`, unfolded. */
  lemma PackUnfold(st: Packing, us: seq<Unit>, chunkSize: int, overlap: int)
    requires us != []
    ensures Finish(Pack(st, us, chunkSize, overlap)) == Finish(Pack(Step(st, us[0], chunkSize, overlap), us[1..], chunkSize, overlap))
    ensures FlushedFrom(st, us, chunkSize, overlap)
            == FlushedBy(st, us[0], chunkSize) + FlushedFrom(Step(st, us[0], chunkSize, overlap), us[1..], chunkSize, overlap)
  {
  }

  lemma {:induction false} PackTrimsFlushed(st: Packing, us: seq<Unit>, chunkSize: int, overlap: int, bs: seq<string>)
    requires TrimsOf(st.chunks, bs)
    ensures TrimsOf(Finish(Pack(st, us, chunkSize, overlap)), bs + FlushedFrom(st, us, chunkSize, overlap))
    decreases |us|
  {
    if us == [] {
      var cs' := Finish(st);
      var bs' := bs + (if st.buffer != "" then [st.buffer] else []);
      forall j | 0 <= j < |cs'| ensures cs'[j] == Trim(bs'[j]) {
        if j < |st.chunks| {
          assert cs'[j] == st.chunks[j];
        }
      }
    } else {
      var u := us[0];
      var st' := Step(st, u, chunkSize, overlap);
      var fl := FlushedBy(st, u, chunkSize);
      var rest := FlushedFrom(st', us[1..], chunkSize, overlap);
      forall j | 0 <= j < |st'.chunks| ensures st'.chunks[j] == Trim((bs + fl)[j]) {
        if j < |st.chunks| {
          assert st'.chunks[j] == st.chunks[j];
        }
      }
      PackTrimsFlushed(st', us[1..], chunkSize, overlap, bs + fl);
      PackUnfold(st, us, chunkSize, overlap);
      AppendAssoc(bs, fl, rest);
    }
  }

  /** Emitting the buffer `s` as a chunk keeps `CarriesOverlap` when `s` starts with the
      overlap of the buffer that gave the last chunk. */
  lemma EmitKeepsOverlap(cs: seq<string>, bs: seq<string>, s: string, overlap: int)
    requires CarriesOverlap(cs, bs, overlap)
    requires bs != [] ==> Reseed(bs[|bs| - 1], overlap) <= s
    ensures CarriesOverlap(cs + [Trim(s)], bs + [s], overlap)
  {
    var cs', bs' := cs + [Trim(s)], bs + [s];
    if cs != [] {
      ContainsTrimmedPrefix(Reseed(bs[|bs| - 1], overlap), s);
    }
    forall j | 1 <= j < |cs'| ensures Contains(cs'[j], Trim(Reseed(bs'[j - 1], overlap))) {
      if j < |cs| {
        assert cs'[j] == cs[j] && bs'[j - 1] == bs[j - 1];
      }
    }
  }

  /** What the packing loop keeps while it runs: the chunks so far carry the overlap of the
      buffers flushed so far, and the buffer starts with the reseed of the last of them. */
  predicate OverlapInvariant(st: Packing, bs: seq<string>, overlap: int) {
    CarriesOverlap(st.chunks, bs, overlap) && (bs != [] ==> Reseed(bs[|bs| - 1], overlap) <= st.buffer)
  }

  /** One packing step keeps `OverlapInvariant`, recording the buffer it flushes, if any. */
  lemma StepOverlap(st: Packing, u: Unit, chunkSize: int, overlap: int, bs: seq<string>)
    requires OverlapInvariant(st, bs, overlap)
    ensures OverlapInvariant(Step(st, u, chunkSize, overlap), bs + FlushedBy(st, u, chunkSize), overlap)
  {
    var st' := Step(st, u, chunkSize, overlap);
    if Flushes(st.buffer, u, chunkSize) {
      EmitKeepsOverlap(st.chunks, bs, st.buffer, overlap);
      var b := Reseed(st.buffer, overlap);
      assert st'.buffer == b + (if b != "" then " " else "") + u.piece;
    } else {
      AppendEmpty(bs);
      assert st'.buffer == st.buffer + (if st.buffer != "" then " " else "") + u.piece;
    }
  }

  /** The final flush keeps `CarriesOverlap`. */
  lemma FinishOverlap(st: Packing, overlap: int, bs: seq<string>)
    requires OverlapInvariant(st, bs, overlap)
    ensures CarriesOverlap(Finish(st), bs + (if st.buffer != "" then [st.buffer] else []), overlap)
  {
    if st.buffer != "" {
      EmitKeepsOverlap(st.chunks, bs, st.buffer, overlap);
    } else {
      AppendEmpty(bs);
    }
  }

  lemma {:induction false} PackOverlap(st: Packing, us: seq<Unit>, chunkSize: int, overlap: int, bs: seq<string>)
    requires OverlapInvariant(st, bs, overlap)
    ensures CarriesOverlap(Finish(Pack(st, us, chunkSize, overlap)), bs + FlushedFrom(st, us, chunkSize, overlap), overlap)
    decreases |us|
  {
    if us == [] {
      FinishOverlap(st, overlap, bs);
    } else {
      var st' := Step(st, us[0], chunkSize, overlap);
      var fl := FlushedBy(st, us[0], chunkSize);
      StepOverlap(st, us[0], chunkSize, overlap, bs);
      PackOverlap(st', us[1..], chunkSize, overlap, bs + fl);
      PackUnfold(st, us, chunkSize, overlap);
      AppendAssoc(bs, fl, FlushedFrom(st', us[1..], chunkSize, overlap));
    }
  }

  /** Adjacent chunks overlap: chunk `j` is the trimmed buffer flushed at push `j`, and
      chunk `j + 1` holds the trimmed last `overlap` characters of that buffer (or the
      empty reseed, when `overlap` is not positive or the buffer is not longer than it). */
  lemma AdjacentChunksOverlap(text: string, chunkSize: int, overlap: int)
    ensures ChunksOverlap(Chunks(text, chunkSize, overlap), FlushedBuffers(text, chunkSize, overlap), overlap)
  {
    if text != "" {
      PackTrimsFlushed(Packing("", []), Units(text, chunkSize), chunkSize, overlap, []);
      PackOverlap(Packing("", []), Units(text, chunkSize), chunkSize, overlap, []);
      assert [] + FlushedBuffers(text, chunkSize, overlap) == FlushedBuffers(text, chunkSize, overlap);
    }
  }

  /** Dropping leading white space from a string that ends in a non-space keeps its last
      character. */
  lemma {:induction false} TrimStartKeepsLast(s: string)
    requires s != [] && !IsSpace(s[|s| - 1])
    ensures TrimStart(s) != [] && TrimStart(s)[|TrimStart(s)| - 1] == s[|s| - 1]
    decreases |s|
  {
    if IsSpace(s[0]) {
      assert s[1..][|s| - 2] == s[|s| - 1];
      TrimStartKeepsLast(s[1..]);
    }
  }

  /** A string that ends in a non-space trims to a suffix of itself. */
  lemma TrimIsSuffix(s: string)
    requires s != [] && !IsSpace(s[|s| - 1])
    ensures |Trim(s)| <= |s| && Trim(s) == s[|s| - |Trim(s)|..]
  {
    TrimStartKeepsLast(s);
    TrimStartIsSuffix(s);
    assert Trim(s) == TrimStart(s);
  }

  /** The string fact behind `AdjacentChunksShareTail`: when `c` is the trimmed buffer `b`
      and `b` ends in a non-space, the reseed of `b` is the last `overlap` characters of `c`. */
  lemma TailCarried(b: string, c: string, d: string, overlap: int)
    requires overlap > 0 && b != [] && !IsSpace(b[|b| - 1])
    requires c == Trim(b) && |c| > overlap
    requires Contains(d, Trim(Reseed(b, overlap)))
    ensures Contains(d, Trim(c[|c| - overlap..])) && Trim(c[|c| - overlap..]) != []
  {
    TrimIsSuffix(b);
    assert c == b[|b| - |c|..];
    var tail := c[|c| - overlap..];
    assert Reseed(b, overlap) == tail by {
      assert forall m :: 0 <= m < overlap ==> b[|b| - overlap + m] == tail[m];
    }
    TrimEmptyIff(tail);
    assert tail[overlap - 1] == b[|b| - 1];
  }

  lemma OverlapAt(cs: seq<string>, bs: seq<string>, overlap: int, j: nat)
    requires ChunksOverlap(cs, bs, overlap) && j + 1 < |cs|
    requires overlap > 0 && |cs[j]| > overlap && bs[j] != [] && !IsSpace(bs[j][|bs[j]| - 1])
    ensures Contains(cs[j + 1], Trim(cs[j][|cs[j]| - overlap..])) && Trim(cs[j][|cs[j]| - overlap..]) != []
  {
    assert cs[j] == Trim(bs[j]);
    assert Contains(cs[j + 1], Trim(Reseed(bs[j], overlap)));
    TailCarried(bs[j], cs[j], cs[j + 1], overlap);
  }

  /** When the flushed buffer ends in a non-space (its last unit had text) and the chunk is
      longer than a positive `overlap`, the next chunk holds the chunk's own last `overlap`
      characters, trimmed, and that text is not empty. */
  lemma AdjacentChunksShareTail(text: string, chunkSize: int, overlap: int, j: nat)
    requires overlap > 0
    requires j + 1 < |Chunks(text, chunkSize, overlap)| && j < |FlushedBuffers(text, chunkSize, overlap)|
    requires |Chunks(text, chunkSize, overlap)[j]| > overlap
    requires FlushedBuffers(text, chunkSize, overlap)[j] != ""
    requires !IsSpace(FlushedBuffers(text, chunkSize, overlap)[j][|FlushedBuffers(text, chunkSize, overlap)[j]| - 1])
    ensures Contains(Chunks(text, chunkSize, overlap)[j + 1],
                     Trim(Chunks(text, chunkSize, overlap)[j][|Chunks(text, chunkSize, overlap)[j]| - overlap..]))
    ensures Trim(Chunks(text, chunkSize, overlap)[j][|Chunks(text, chunkSize, overlap)[j]| - overlap..]) != []
  {
    AdjacentChunksOverlap(text, chunkSize, overlap);
    OverlapAt(Chunks(text, chunkSize, overlap), FlushedBuffers(text, chunkSize, overlap), overlap, j);
  }

  // ---------------------------------------------------------------------------------
  // The chunker as written
  // ---------------------------------------------------------------------------------

  /** The units of one paragraph with the sentence regex as written. */
  function ParagraphUnitsAsWritten(para: string, chunkSize: int): seq<Unit> {
    if |para| > chunkSize then SentenceUnits(SentencesAsWritten(para)) else [Unit(para, para)]
  }

  function UnitsOfAsWritten(paras: seq<string>, chunkSize: int): seq<Unit> {
    if paras == [] then [] else ParagraphUnitsAsWritten(paras[0], chunkSize) + UnitsOfAsWritten(paras[1..], chunkSize)
  }

  /** `chunkText(text, chunkSize, overlap)` as written: the same packing as `Chunks`, over the
      units of the sentence regex as written. */
  function ChunksAsWritten(text: string, chunkSize: int, overlap: int): seq<string> {
    if text == "" then [] else Finish(Pack(Packing("", []), UnitsOfAsWritten(Paragraphs(text), chunkSize), chunkSize, overlap))
  }

  /** "a. b" is one paragraph, and only its sentence split differs between the two chunkers. */
  lemma ShortParagraph()
    ensures Paragraphs("a. b") == ["a. b"]
  {
    var t := "a. b";
    SplitWithoutLineFeed(t, 0, 0);
    assert t[0..] == t;
    TrimTrimmed(t);
    assert TrimmedNonEmpty([t]) == [t] + TrimmedNonEmpty([]);
  }

  /** As written, a paragraph longer than the chunk size loses the text after its last
      terminator: "a. b" with chunks of at most one character gives the single chunk "a.",
      and no chunk holds "b"; the corrected chunker keeps "b" as a chunk of its own. */
  lemma ChunksAsWrittenDropTail()
    ensures ChunksAsWritten("a. b", 1, 0) == ["a."]
    ensures !InSomeChunk(ChunksAsWritten("a. b", 1, 0), "b")
    ensures Chunks("a. b", 1, 0) == ["a.", "b"]
  {
    AsWrittenChunksOfShortParagraph();
    NotContainsMissingChar("a.", "b", 'b');
    CorrectedChunksOfShortParagraph();
  }

  lemma AsWrittenChunksOfShortParagraph()
    ensures ChunksAsWritten("a. b", 1, 0) == ["a."]
  {
    var u := Unit("a.", "a.");
    AsWrittenUnitsOfShortParagraph();
    FirstStepOfShortParagraph();
    assert [u][1..] == [];
    TrimTrimmed("a.");
  }

  lemma AsWrittenUnitsOfShortParagraph()
    ensures UnitsOfAsWritten(Paragraphs("a. b"), 1) == [Unit("a.", "a.")]
  {
    ShortParagraph();
    SentencesAsWrittenDropTail();
    TrimTrimmed("a.");
    assert SentenceUnits(["a."]) == [Unit("a.", "a.")];
    assert ["a. b"][1..] == [];
  }

  /** The corrected split of "a. b" is "a." and " b". */
  lemma SentencesOfShortParagraph()
    ensures Sentences("a. b") == ["a.", " b"]
  {
    var t := "a. b";
    assert RunEnd(t, 3, false) == 4;
    assert RunEnd(t, 2, false) == 4;
    assert RunEnd(t, 4, true) == 4;
    assert SentencePiecesFrom(t, 4) == [];
    assert t[2..4] == " b";
    assert SentencePiecesFrom(t, 2) == [" b"];
    assert RunEnd(t, 2, true) == 2;
    assert RunEnd(t, 1, true) == 2;
    assert RunEnd(t, 1, false) == 1;
    assert RunEnd(t, 0, false) == 1;
    assert t[0..2] == "a.";
  }

  lemma CorrectedChunksOfShortParagraph()
    ensures Chunks("a. b", 1, 0) == ["a.", "b"]
  {
    UnitsOfShortParagraph();
    PackShortParagraph();
  }

  lemma PackShortParagraph()
    ensures Finish(Pack(Packing("", []), [Unit("a.", "a."), Unit(" b", "b")], 1, 0)) == ["a.", "b"]
  {
    var u, v := Unit("a.", "a."), Unit(" b", "b");
    FirstStepOfShortParagraph();
    SecondStepOfShortParagraph();
    assert [u, v][1..] == [v];
    assert [v][1..] == [];
    TrimTrimmed("b");
  }

  lemma UnitsOfShortParagraph()
    ensures Units("a. b", 1) == [Unit("a.", "a."), Unit(" b", "b")]
  {
    ShortParagraph();
    SentencesOfShortParagraph();
    assert Trim(" b") == "b";
    assert TrimStart(" b") == "b";
    TrimTrimmed("a.");
    assert SentenceUnits(["a.", " b"]) == [Unit("a.", "a."), Unit(" b", "b")];
    assert ["a. b"][1..] == [];
  }

  lemma FirstStepOfShortParagraph()
    ensures Step(Packing("", []), Unit("a.", "a."), 1, 0) == Packing("a.", [])
  {
    assert "" + "" + "a." == "a.";
  }

  lemma SecondStepOfShortParagraph()
    ensures Step(Packing("a.", []), Unit(" b", "b"), 1, 0) == Packing("b", ["a."])
  {
    assert Flushes("a.", Unit(" b", "b"), 1) by {
      var s := "a." + " " + " b";
      TrimIsSlice(s);
      assert s[0] == 'a';
      assert TrimStart(s) == s;
      assert s[|s| - 1] == 'b';
    }
    assert "" + "" + "b" == "b";
    TrimTrimmed("a.");
  }

  // ---------------------------------------------------------------------------------
  // Degenerate texts
  // ---------------------------------------------------------------------------------

  lemma {:induction false} SplitWithoutLineFeed(s: string, start: nat, i: nat)
    requires start <= i <= |s|
    requires forall m :: 0 <= m < |s| ==> s[m] != '\n'
    ensures SplitBlankLinesFrom(s, start, i) == [s[start..]]
    decreases |s| - i
  {
    if i < |s| {
      SplitWithoutLineFeed(s, start, i + 1);
    }
  }

  /** A trimmed text with no sentence terminator and no line break is a single chunk,
      however long it is: it is one paragraph, and that paragraph is one sentence. */
  lemma OneChunkWithoutTerminators(text: string, chunkSize: int, overlap: int)
    requires text != "" && IsTrimmed(text)
    requires forall m :: 0 <= m < |text| ==> !IsTerminator(text[m])
    ensures Chunks(text, chunkSize, overlap) == [text]
  {
    OneUnitWithoutTerminators(text, chunkSize);
    var u := Unit(text, text);
    assert [u][1..] == [];
    assert "" + "" + text == text;
    assert Step(Packing("", []), u, chunkSize, overlap) == Packing(text, []);
    assert Pack(Packing("", []), [u], chunkSize, overlap) == Packing(text, []);
  }

  lemma OneUnitWithoutTerminators(text: string, chunkSize: int)
    requires text != "" && IsTrimmed(text)
    requires forall m :: 0 <= m < |text| ==> !IsTerminator(text[m])
    ensures Units(text, chunkSize) == [Unit(text, text)]
  {
    SplitWithoutLineFeed(text, 0, 0);
    TrimTrimmed(text);
    assert text[0..] == text;
    assert Paragraphs(text) == [text];
    assert RunEnd(text, 0, false) == |text|;
    assert RunEnd(text, |text|, true) == |text|;
    assert SentencePiecesFrom(text, |text|) == [];
    assert text[0..|text|] == text;
    assert SentencePiecesFrom(text, 0) == [text];
    assert Sentences(text) == [text];
    assert SentenceUnits([text]) == [Unit(text, text)];
    assert ParagraphUnits(text, chunkSize) == [Unit(text, text)];
    assert [text][1..] == [];
    assert Units(text, chunkSize) == [Unit(text, text)] + UnitsOf([], chunkSize);
  }

  lemma {:induction false} SplitAllSpace(s: string, start: nat, i: nat)
    requires start <= i <= |s| && AllSpace(s)
    ensures forall k :: 0 <= k < |SplitBlankLinesFrom(s, start, i)| ==> AllSpace(SplitBlankLinesFrom(s, start, i)[k])
    decreases |s| - i
  {
    if i == |s| {
      assert forall m :: 0 <= m < |s[start..]| ==> s[start..][m] == s[start + m];
    } else if s[i] == '\n' && LastLineFeedInRun(s, i + 1, None).Some? {
      var e := LastLineFeedInRun(s, i + 1, None).value;
      assert forall m :: 0 <= m < |s[start..i]| ==> s[start..i][m] == s[start + m];
      SplitAllSpace(s, e + 1, e + 1);
    } else {
      SplitAllSpace(s, start, i + 1);
    }
  }

  lemma {:induction false} TrimmedNonEmptyAllSpace(pieces: seq<string>)
    requires forall k :: 0 <= k < |pieces| ==> AllSpace(pieces[k])
    ensures TrimmedNonEmpty(pieces) == []
  {
    if pieces != [] {
      TrimEmptyIff(pieces[0]);
      TrimmedNonEmptyAllSpace(pieces[1..]);
    }
  }

  /** A text made only of white space has no chunks. */
  lemma BlankTextHasNoChunks(text: string, chunkSize: int, overlap: int)
    requires AllSpace(text)
    ensures Chunks(text, chunkSize, overlap) == []
  {
    SplitAllSpace(text, 0, 0);
    TrimmedNonEmptyAllSpace(SplitBlankLines(text));
  }
}
