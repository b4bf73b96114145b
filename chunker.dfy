/** The document chunker of the backend service: a cursor walks the text in
    windows of at most `chunkSize` characters, pulls each cut back to the
    last sentence end in the final 200 characters of the window, trims the
    piece, drops blank pieces and moves on by `end - overlap`. */
module Chunker {
  import opened Common
  import opened Text

  /** File details `chunk_file` adds to every chunk's metadata. */
  datatype FileInfo = FileInfo(filename: string, filePath: string, fileType: string, fileSize: nat)

  datatype ChunkMeta = ChunkMeta(chunkSize: nat, source: string, totalChunks: nat, file: Option<FileInfo>)

  /** `endPos` is the cut as computed, not clamped to the text's length. */
  datatype Chunk = Chunk(text: string, startPos: nat, endPos: int, chunkId: nat, meta: ChunkMeta)

  /** How far back from a window's end a sentence end is looked for. */
  const SentenceWindow: nat := 200

  /** The loop advances the cursor only if the overlap is smaller than the
      shortest window a sentence cut can leave; the source does not check
      this, so every entry point requires it. */
  predicate Progresses(chunkSize: int, overlap: nat) {
    overlap + SentenceWindow <= chunkSize
  }

  /** `p` is a '.' that may end the window starting at `start`. */
  predicate IsCut(text: string, start: nat, chunkSize: int, p: int) {
    Max(start, start + chunkSize - SentenceWindow) <= p < start + chunkSize
    && start < p < |text| && text[p] == '.'
  }

  /** The end of the window starting at `start` (lines 55-63). */
  function NextEnd(text: string, start: nat, chunkSize: int): (end: int)
    ensures end <= start + chunkSize
    ensures end == start + chunkSize || (start + chunkSize - SentenceWindow < end && start + 1 < end)
  {
    var end := start + chunkSize;
    if end < |text| then
      var sentenceEnd := LastIndexOf(text, '.', Max(start, end - SentenceWindow), end);
      if sentenceEnd > start then sentenceEnd + 1 else end
    else end
  }

  /** The sentence-boundary rule: when the window ends inside the text and
      holds a '.' strictly after `start` within its last 200 characters, the
      cut falls just after the last such '.'; otherwise the window keeps its
      full length. */
  lemma NextEndRule(text: string, start: nat, chunkSize: int)
    ensures var end := NextEnd(text, start, chunkSize);
            && ((start + chunkSize < |text| && exists p :: IsCut(text, start, chunkSize, p)) ==>
                  IsCut(text, start, chunkSize, end - 1)
                  && forall q :: end - 1 < q < start + chunkSize ==> text[q] != '.')
            && (!(start + chunkSize < |text| && exists p :: IsCut(text, start, chunkSize, p)) ==>
                  end == start + chunkSize)
  {
    var end := start + chunkSize;
    if end < |text| {
      var lo := Max(start, end - SentenceWindow);
      var sentenceEnd := LastIndexOf(text, '.', lo, end);
      LastIndexOfIsLast(text, '.', lo, end);
      if sentenceEnd > start {
        assert IsCut(text, start, chunkSize, sentenceEnd);
      }
    }
  }

  /** `text[start:end].strip()`, with Python's clamping of slice bounds. */
  function Piece(text: string, start: nat, end: int): string {
    var lo := Min(start, |text|);
    Strip(text[lo..Max(lo, Min(end, |text|))])
  }

  /** One window of the cursor loop: it starts at `start` and is cut at `end`. */
  datatype Window = Window(start: nat, end: int)

  /** The windows the cursor visits from `start` on: each is cut by
      `NextEnd`, and the next one starts `overlap` characters before that
      cut. */
  function Windows(text: string, start: nat, chunkSize: int, overlap: nat): seq<Window>
    requires Progresses(chunkSize, overlap)
    decreases |text| - start
  {
    if start >= |text| then []
    else
      var end := NextEnd(text, start, chunkSize);
      [Window(start, end)] + Windows(text, end - overlap, chunkSize, overlap)
  }

  /** The chunk the window `w` yields, numbered `id`, before the count is
      known. */
  function ChunkOf(text: string, w: Window, source: string, id: nat): Chunk {
    var piece := Piece(text, w.start, w.end);
    Chunk(piece, w.start, w.end, id, ChunkMeta(|piece|, source, 0, None))
  }

  /** The chunks the windows `ws` yield, numbered from `id`; a window whose
      piece is blank yields nothing and uses up no id. */
  function Emit(text: string, ws: seq<Window>, source: string, id: nat): seq<Chunk>
    decreases |ws|
  {
    if ws == [] then []
    else if ChunkOf(text, ws[0], source, id).text != [] then
      [ChunkOf(text, ws[0], source, id)] + Emit(text, ws[1..], source, id + 1)
    else Emit(text, ws[1..], source, id)
  }

  /** The chunks emitted from cursor position `start` on, numbered from `id`,
      with `total_chunks` still 0. */
  function Run(text: string, start: nat, chunkSize: int, overlap: nat, source: string, id: nat): seq<Chunk>
    requires Progresses(chunkSize, overlap)
  {
    Emit(text, Windows(text, start, chunkSize, overlap), source, id)
  }

  /** One turn of the cursor loop: the window at `start` is cut at `end`;
      its trimmed `piece`, unless blank, is the next chunk, and the loop goes
      on from `end - overlap`, which lies beyond `start`. */
  lemma RunStep(text: string, start: nat, end: int, chunkSize: int, overlap: nat, source: string,
                all: seq<Chunk>, before: seq<Chunk>, id: nat, after: seq<Chunk>, nextId: nat, next: int)
    requires Progresses(chunkSize, overlap) && start < |text|
    requires all == before + Run(text, start, chunkSize, overlap, source, id)
    requires end == NextEnd(text, start, chunkSize)
    requires Piece(text, start, end) != [] ==>
               after == before + [Chunk(Piece(text, start, end), start, end, id,
                                        ChunkMeta(|Piece(text, start, end)|, source, 0, None))]
               && nextId == id + 1
    requires Piece(text, start, end) == [] ==> after == before && nextId == id
    requires next == end - overlap
    ensures start < next
    ensures all == after + Run(text, next, chunkSize, overlap, source, nextId)
  {
    var ws := Windows(text, start, chunkSize, overlap);
    assert ws[1..] == Windows(text, end - overlap, chunkSize, overlap);
    var piece := Piece(text, start, end);
    if piece != [] {
      var chunk := Chunk(piece, start, end, id, ChunkMeta(|piece|, source, 0, None));
      var later := Run(text, end - overlap, chunkSize, overlap, source, id + 1);
      assert Run(text, start, chunkSize, overlap, source, id) == [chunk] + later;
      assert before + ([chunk] + later) == (before + [chunk]) + later;
    }
  }

  /** A window the cursor may visit in `text`. */
  predicate WellWindow(text: string, chunkSize: int, overlap: nat, w: Window) {
    && w.start < |text|
    && w.end == NextEnd(text, w.start, chunkSize)
    && w.start + overlap < w.end <= w.start + chunkSize
  }

  /** Each window starts `overlap` characters before the previous cut. */
  predicate Linked(ws: seq<Window>, overlap: nat)
    decreases |ws|
  {
    |ws| >= 2 ==> ws[1].start == ws[0].end - overlap && Linked(ws[1..], overlap)
  }

  /** The windows from `start` on are well formed, start at or after
      `start`, and each begins `overlap` before the previous cut. */
  lemma {:induction false} WindowsShape(text: string, start: nat, chunkSize: int, overlap: nat)
    requires Progresses(chunkSize, overlap)
    ensures forall k :: 0 <= k < |Windows(text, start, chunkSize, overlap)| ==>
              start <= Windows(text, start, chunkSize, overlap)[k].start
              && WellWindow(text, chunkSize, overlap, Windows(text, start, chunkSize, overlap)[k])
    ensures Linked(Windows(text, start, chunkSize, overlap), overlap)
    decreases |text| - start
  {
    if start < |text| {
      var end := NextEnd(text, start, chunkSize);
      var ws := Windows(text, start, chunkSize, overlap);
      var rest := Windows(text, end - overlap, chunkSize, overlap);
      WindowsShape(text, end - overlap, chunkSize, overlap);
      assert ws[1..] == rest;
      assert forall k :: 1 <= k < |ws| ==> ws[k] == rest[k - 1];
    }
  }

  /** The windows from `start` on cover every position from `start` to the
      end of the text. */
  lemma {:induction false} WindowsCover(text: string, start: nat, chunkSize: int, overlap: nat, k: int)
    requires Progresses(chunkSize, overlap)
    requires start <= k < |text|
    ensures exists m :: 0 <= m < |Windows(text, start, chunkSize, overlap)|
              && Windows(text, start, chunkSize, overlap)[m].start <= k < Windows(text, start, chunkSize, overlap)[m].end
    decreases |text| - start
  {
    var end := NextEnd(text, start, chunkSize);
    var ws := Windows(text, start, chunkSize, overlap);
    if k < end {
      assert ws[0].start <= k < ws[0].end;
    } else {
      var rest := Windows(text, end - overlap, chunkSize, overlap);
      WindowsCover(text, end - overlap, chunkSize, overlap, k);
      var m :| 0 <= m < |rest| && rest[m].start <= k < rest[m].end;
      assert ws[m + 1] == rest[m];
    }
  }

  /** Emitted chunks are numbered consecutively from `id` and carry
      `source`, no count yet and no file. */
  lemma {:induction false} EmitIds(text: string, ws: seq<Window>, source: string, id: nat)
    ensures forall i :: 0 <= i < |Emit(text, ws, source, id)| ==>
              Emit(text, ws, source, id)[i].chunkId == id + i
              && Emit(text, ws, source, id)[i].meta
                 == ChunkMeta(|Emit(text, ws, source, id)[i].text|, source, 0, None)
    decreases |ws|
  {
    if ws != [] {
      var piece := ChunkOf(text, ws[0], source, id).text;
      if piece != [] {
        EmitIds(text, ws[1..], source, id + 1);
        var rest := Emit(text, ws[1..], source, id + 1);
        var r := Emit(text, ws, source, id);
        assert forall i :: 1 <= i < |r| ==> r[i] == rest[i - 1];
      } else {
        EmitIds(text, ws[1..], source, id);
      }
    }
  }

  /** Every emitted chunk spans one of the windows. */
  lemma {:induction false} EmitFromWindows(text: string, ws: seq<Window>, source: string, id: nat)
    ensures forall i :: 0 <= i < |Emit(text, ws, source, id)| ==>
              exists m :: 0 <= m < |ws|
                && Emit(text, ws, source, id)[i].startPos == ws[m].start
                && Emit(text, ws, source, id)[i].endPos == ws[m].end
    decreases |ws|
  {
    if ws != [] {
      var piece := ChunkOf(text, ws[0], source, id).text;
      var nextId := if piece != [] then id + 1 else id;
      EmitFromWindows(text, ws[1..], source, nextId);
      var rest := Emit(text, ws[1..], source, nextId);
      var r := Emit(text, ws, source, id);
      forall i | 0 <= i < |r|
        ensures exists m :: 0 <= m < |ws|
                  && Emit(text, ws, source, id)[i].startPos == ws[m].start
                  && Emit(text, ws, source, id)[i].endPos == ws[m].end
      {
        if piece != [] && i == 0 {
          assert r[0].startPos == ws[0].start && r[0].endPos == ws[0].end;
        } else {
          var j := if piece != [] then i - 1 else i;
          assert r[i] == rest[j];
          var m :| 0 <= m < |ws[1..]| && rest[j].startPos == ws[1..][m].start && rest[j].endPos == ws[1..][m].end;
          assert ws[1..][m] == ws[m + 1];
          assert r[i].startPos == ws[m + 1].start && r[i].endPos == ws[m + 1].end;
        }
      }
    } else {
      assert Emit(text, ws, source, id) == [];
    }
  }

  /** Every emitted chunk holds the trimmed piece of its own span, and that
      piece is not empty. */
  lemma {:induction false} EmitPieces(text: string, ws: seq<Window>, source: string, id: nat)
    ensures forall i :: 0 <= i < |Emit(text, ws, source, id)| ==>
              Emit(text, ws, source, id)[i].text
                == Piece(text, Emit(text, ws, source, id)[i].startPos, Emit(text, ws, source, id)[i].endPos)
              && Emit(text, ws, source, id)[i].text != []
    decreases |ws|
  {
    if ws != [] {
      var piece := ChunkOf(text, ws[0], source, id).text;
      var nextId := if piece != [] then id + 1 else id;
      EmitPieces(text, ws[1..], source, nextId);
      var rest := Emit(text, ws[1..], source, nextId);
      var r := Emit(text, ws, source, id);
      if piece != [] {
        assert forall i :: 1 <= i < |r| ==> r[i] == rest[i - 1];
      }
    }
  }

  /** When every window starts at or after `lo`, so does every chunk. */
  lemma {:induction false} EmitAfter(text: string, ws: seq<Window>, source: string, id: nat, lo: int)
    requires forall m :: 0 <= m < |ws| ==> lo <= ws[m].start
    ensures forall i :: 0 <= i < |Emit(text, ws, source, id)| ==> lo <= Emit(text, ws, source, id)[i].startPos
  {
    EmitFromWindows(text, ws, source, id);
  }

  /** Starts strictly increase, and each start is at least the previous end
      minus the overlap. */
  predicate Chained(r: seq<Chunk>, overlap: nat)
    decreases |r|
  {
    |r| >= 2 ==>
      && r[0].startPos < r[1].startPos
      && r[0].endPos - overlap <= r[1].startPos
      && Chained(r[1..], overlap)
  }

  /** Linked windows that each reach beyond `start + overlap` give chained
      chunks, whichever windows are skipped as blank. */
  lemma {:induction false} EmitChained(text: string, ws: seq<Window>, source: string, id: nat, overlap: nat)
    requires Linked(ws, overlap)
    requires forall m :: 0 <= m < |ws| ==> ws[m].start + overlap < ws[m].end
    ensures Chained(Emit(text, ws, source, id), overlap)
    ensures forall m :: 0 <= m < |ws| ==> ws[0].start <= ws[m].start
    decreases |ws|
  {
    if ws != [] {
      var piece := ChunkOf(text, ws[0], source, id).text;
      var nextId := if piece != [] then id + 1 else id;
      var tail := ws[1..];
      assert forall m :: 0 <= m < |tail| ==> tail[m] == ws[m + 1];
      EmitChained(text, tail, source, nextId, overlap);
      if tail != [] {
        EmitAfter(text, tail, source, nextId, tail[0].start);
      }
      var rest := Emit(text, tail, source, nextId);
      if piece != [] {
        var r := Emit(text, ws, source, id);
        assert r[1..] == rest;
      }
    }
  }

  /** Everything a chunk of `text` satisfies. */
  predicate WellCut(text: string, chunkSize: int, overlap: nat, c: Chunk) {
    && WellWindow(text, chunkSize, overlap, Window(c.startPos, c.endPos))
    && c.text == Piece(text, c.startPos, c.endPos)
    && c.text != []
    && |c.text| <= chunkSize
    && c.meta.chunkSize == |c.text|
  }

  /** Lines 87-89: every chunk learns the final count. */
  function WithTotal(chunks: seq<Chunk>): (r: seq<Chunk>)
    ensures |r| == |chunks|
    ensures forall i :: 0 <= i < |r| ==> r[i].meta.totalChunks == |chunks|
    ensures forall i :: 0 <= i < |r| ==> r[i] == chunks[i].(meta := chunks[i].meta.(totalChunks := |chunks|))
  {
    seq(|chunks|, i requires 0 <= i < |chunks| => chunks[i].(meta := chunks[i].meta.(totalChunks := |chunks|)))
  }

  /** What `chunk_text` returns. */
  function ChunkTextSpec(text: string, chunkSize: int, overlap: nat, source: string): seq<Chunk>
    requires Progresses(chunkSize, overlap)
  {
    if IsBlank(text) then [] else WithTotal(Run(text, 0, chunkSize, overlap, source, 0))
  }

  /** Facts about the raw chunks that `ChunkTextShape` lifts to the result. */
  lemma RunShape(text: string, chunkSize: int, overlap: nat, source: string)
    requires Progresses(chunkSize, overlap)
    ensures forall i :: 0 <= i < |Run(text, 0, chunkSize, overlap, source, 0)| ==>
              WellCut(text, chunkSize, overlap, Run(text, 0, chunkSize, overlap, source, 0)[i])
    ensures Chained(Run(text, 0, chunkSize, overlap, source, 0), overlap)
  {
    var ws := Windows(text, 0, chunkSize, overlap);
    var r := Run(text, 0, chunkSize, overlap, source, 0);
    WindowsShape(text, 0, chunkSize, overlap);
    EmitIds(text, ws, source, 0);
    EmitFromWindows(text, ws, source, 0);
    EmitPieces(text, ws, source, 0);
    EmitChained(text, ws, source, 0, overlap);
    forall i | 0 <= i < |r|
      ensures WellCut(text, chunkSize, overlap, r[i])
    {
      var m :| 0 <= m < |ws| && r[i].startPos == ws[m].start && r[i].endPos == ws[m].end;
      assert WellWindow(text, chunkSize, overlap, ws[m]);
      var lo := Min(r[i].startPos, |text|);
      StripSpec(text[lo..Max(lo, Min(r[i].endPos, |text|))]);
    }
  }

  lemma {:induction false} ChainedOrdered(r: seq<Chunk>, overlap: nat)
    requires Chained(r, overlap)
    ensures forall i, j :: 0 <= i < j < |r| ==> r[i].startPos < r[j].startPos
    ensures forall i :: 0 <= i < |r| - 1 ==> r[i].endPos - overlap <= r[i + 1].startPos
    decreases |r|
  {
    if |r| >= 2 {
      var tail := r[1..];
      ChainedOrdered(tail, overlap);
      assert forall i :: 1 <= i < |r| ==> r[i] == tail[i - 1];
    }
  }

  /** The properties `chunk_text` promises of its result: blank text gives
      no chunks; ids are `0..n-1` in order and every chunk knows `n`; every
      chunk is a trimmed, non-empty, well-formed cut of at most `chunkSize`
      characters; starts strictly increase and each is at least the previous
      end minus the overlap. */
  lemma ChunkTextShape(text: string, chunkSize: int, overlap: nat, source: string)
    requires Progresses(chunkSize, overlap)
    ensures IsBlank(text) ==> ChunkTextSpec(text, chunkSize, overlap, source) == []
    ensures forall i :: 0 <= i < |ChunkTextSpec(text, chunkSize, overlap, source)| ==>
              WellCut(text, chunkSize, overlap, ChunkTextSpec(text, chunkSize, overlap, source)[i])
    ensures forall i, j :: 0 <= i < j < |ChunkTextSpec(text, chunkSize, overlap, source)| ==>
              ChunkTextSpec(text, chunkSize, overlap, source)[i].startPos
              < ChunkTextSpec(text, chunkSize, overlap, source)[j].startPos
    ensures forall i :: 0 <= i < |ChunkTextSpec(text, chunkSize, overlap, source)| - 1 ==>
              ChunkTextSpec(text, chunkSize, overlap, source)[i].endPos - overlap
              <= ChunkTextSpec(text, chunkSize, overlap, source)[i + 1].startPos
    ensures forall i :: 0 <= i < |ChunkTextSpec(text, chunkSize, overlap, source)| ==>
              ChunkTextSpec(text, chunkSize, overlap, source)[i].chunkId == i
              && ChunkTextSpec(text, chunkSize, overlap, source)[i].meta.source == source
              && ChunkTextSpec(text, chunkSize, overlap, source)[i].meta.file == None
              && ChunkTextSpec(text, chunkSize, overlap, source)[i].meta.totalChunks
                 == |ChunkTextSpec(text, chunkSize, overlap, source)|
  {
    if !IsBlank(text) {
      var run := Run(text, 0, chunkSize, overlap, source, 0);
      EmitIds(text, Windows(text, 0, chunkSize, overlap), source, 0);
      RunShape(text, chunkSize, overlap, source);
      ChainedOrdered(run, overlap);
    }
  }

  /** Every non-whitespace character of the text lies inside the span
      `[startPos, endPos)` of some chunk: nothing but whitespace is ever
      dropped. */
  lemma ChunkTextCovers(text: string, chunkSize: int, overlap: nat, source: string, k: int)
    requires Progresses(chunkSize, overlap)
    requires 0 <= k < |text| && !IsSpace(text[k])
    ensures exists i :: 0 <= i < |ChunkTextSpec(text, chunkSize, overlap, source)|
              && ChunkTextSpec(text, chunkSize, overlap, source)[i].startPos <= k
              && k < ChunkTextSpec(text, chunkSize, overlap, source)[i].endPos
  {
    var ws := Windows(text, 0, chunkSize, overlap);
    WindowsCover(text, 0, chunkSize, overlap, k);
    var m :| 0 <= m < |ws| && ws[m].start <= k < ws[m].end;
    EmitCovers(text, ws, source, 0, m, k);
    var r := Run(text, 0, chunkSize, overlap, source, 0);
    var i :| 0 <= i < |r| && r[i].startPos <= k < r[i].endPos;
    assert !IsBlank(text);
    assert ChunkTextSpec(text, chunkSize, overlap, source)[i].startPos == r[i].startPos;
  }

  /** A window holding a non-whitespace character yields a chunk spanning
      that window. */
  lemma {:induction false} EmitCovers(text: string, ws: seq<Window>, source: string, id: nat, m: nat, k: int)
    requires m < |ws| && ws[m].start <= k < ws[m].end && k < |text| && !IsSpace(text[k])
    ensures exists i :: 0 <= i < |Emit(text, ws, source, id)|
              && Emit(text, ws, source, id)[i].startPos <= k < Emit(text, ws, source, id)[i].endPos
    decreases |ws|
  {
    var piece := ChunkOf(text, ws[0], source, id).text;
    var r := Emit(text, ws, source, id);
    if m == 0 {
      var lo := Min(ws[0].start, |text|);
      var hi := Max(lo, Min(ws[0].end, |text|));
      assert lo <= k < hi;
      var window := text[lo..hi];
      assert window[k - lo] == text[k];
      StripBlank(window);
      assert r[0].startPos <= k < r[0].endPos;
    } else {
      var nextId := if piece != [] then id + 1 else id;
      EmitCovers(text, ws[1..], source, nextId, m - 1, k);
      var rest := Emit(text, ws[1..], source, nextId);
      var i :| 0 <= i < |rest| && rest[i].startPos <= k < rest[i].endPos;
      if piece != [] {
        assert r[i + 1] == rest[i];
      } else {
        assert r[i] == rest[i];
      }
    }
  }

  /** A text that fits in one window minus the overlap becomes exactly one
      chunk, the whole text trimmed; its `endPos` is `chunkSize`, beyond the
      text's end when the text is shorter. */
  lemma SingleChunk(text: string, chunkSize: int, overlap: nat, source: string)
    requires Progresses(chunkSize, overlap)
    requires !IsBlank(text) && |text| <= chunkSize - overlap
    ensures ChunkTextSpec(text, chunkSize, overlap, source)
            == [Chunk(Strip(text), 0, chunkSize, 0, ChunkMeta(|Strip(text)|, source, 1, None))]
  {
    assert NextEnd(text, 0, chunkSize) == chunkSize;
    assert Windows(text, chunkSize - overlap, chunkSize, overlap) == [];
    var ws := Windows(text, 0, chunkSize, overlap);
    assert ws == [Window(0, chunkSize)];
    assert text[0..Max(0, Min(chunkSize, |text|))] == text;
    StripBlank(text);
    assert Piece(text, 0, chunkSize) == Strip(text);
    assert Emit(text, ws[1..], source, 1) == [];
    assert Run(text, 0, chunkSize, overlap, source, 0)
           == [Chunk(Strip(text), 0, chunkSize, 0, ChunkMeta(|Strip(text)|, source, 0, None))] + Emit(text, ws[1..], source, 1);
  }

  /** The first two windows of a text that fits in one window but not in
      one window minus the overlap: `[0, chunkSize)` and then
      `[chunkSize - overlap, 2 * chunkSize - overlap)`. */
  lemma TwoWindows(text: string, chunkSize: int, overlap: nat)
    requires Progresses(chunkSize, overlap)
    requires chunkSize - overlap < |text| <= chunkSize
    ensures |Windows(text, 0, chunkSize, overlap)| >= 2
    ensures Windows(text, 0, chunkSize, overlap)[0] == Window(0, chunkSize)
    ensures Windows(text, 0, chunkSize, overlap)[1] == Window(chunkSize - overlap, chunkSize - overlap + chunkSize)
  {
    var s1 := chunkSize - overlap;
    assert NextEnd(text, 0, chunkSize) == chunkSize;
    assert NextEnd(text, s1, chunkSize) == s1 + chunkSize;
    var ws1 := Windows(text, s1, chunkSize, overlap);
    assert ws1[0] == Window(s1, s1 + chunkSize);
    assert Windows(text, 0, chunkSize, overlap) == [Window(0, chunkSize)] + ws1;
  }

  /** Two windows with non-blank pieces at the front yield the first two
      chunks. */
  lemma EmitTwo(text: string, ws: seq<Window>, source: string, id: nat)
    requires |ws| >= 2
    requires ChunkOf(text, ws[0], source, id).text != [] && ChunkOf(text, ws[1], source, id + 1).text != []
    ensures |Emit(text, ws, source, id)| >= 2
    ensures Emit(text, ws, source, id)[0] == ChunkOf(text, ws[0], source, id)
    ensures Emit(text, ws, source, id)[1] == ChunkOf(text, ws[1], source, id + 1)
  {
    var rest := Emit(text, ws[1..], source, id + 1);
    assert Emit(text, ws, source, id) == [ChunkOf(text, ws[0], source, id)] + rest;
    assert ws[1..][0] == ws[1];
    assert rest == [ChunkOf(text, ws[1], source, id + 1)] + Emit(text, ws[2..], source, id + 2) by {
      assert ws[1..][1..] == ws[2..];
    }
  }

  /** A text longer than `chunkSize - overlap` but within one window is
      emitted whole and then, from `chunkSize - overlap` on, a second time as
      a tail chunk (when that tail is not blank). */
  lemma TailChunk(text: string, chunkSize: int, overlap: nat, source: string)
    requires Progresses(chunkSize, overlap)
    requires chunkSize - overlap < |text| <= chunkSize
    requires !IsBlank(text[chunkSize - overlap..])
    ensures |ChunkTextSpec(text, chunkSize, overlap, source)| >= 2
    ensures ChunkTextSpec(text, chunkSize, overlap, source)[0].text == Strip(text)
    ensures ChunkTextSpec(text, chunkSize, overlap, source)[0].startPos == 0
    ensures ChunkTextSpec(text, chunkSize, overlap, source)[0].endPos == chunkSize
    ensures ChunkTextSpec(text, chunkSize, overlap, source)[1].text == Strip(text[chunkSize - overlap..])
    ensures ChunkTextSpec(text, chunkSize, overlap, source)[1].startPos == chunkSize - overlap
  {
    var s1 := chunkSize - overlap;
    var tail := text[s1..];
    assert !IsBlank(text) by {
      var k :| 0 <= k < |tail| && !IsSpace(tail[k]);
      assert text[s1 + k] == tail[k];
    }
    StripBlank(text);
    StripBlank(tail);
    assert text[0..Max(0, Min(chunkSize, |text|))] == text;
    assert text[s1..Max(s1, Min(s1 + chunkSize, |text|))] == tail;
    assert ChunkOf(text, Window(0, chunkSize), source, 0).text == Strip(text);
    assert ChunkOf(text, Window(s1, s1 + chunkSize), source, 1).text == Strip(tail);
    TwoWindows(text, chunkSize, overlap);
    var ws := Windows(text, 0, chunkSize, overlap);
    EmitTwo(text, ws, source, 0);
  }

  datatype ChunkError = FileNotFound(path: string) | UnsupportedFormat(suffix: string) | ExtractionFailed(message: string)

  const SupportedFormats: seq<string> := [".txt", ".md", ".pdf", ".docx", ".doc"]

  /** `Path(name).suffix` of a final path component: from the last `.` on,
      unless that `.` opens the name or ends it, in which case (or when there
      is no `.`) the empty string. */
  function Suffix(name: string): (r: string)
    ensures r == [] || (2 <= |r| < |name| && r[0] == '.' && EndsWith(name, r)
                        && forall k :: 1 <= k < |r| ==> r[k] != '.')
    ensures forall i :: 0 < i < |name| - 1 && name[i] == '.' && (forall k :: i < k < |name| ==> name[k] != '.')
                        ==> r == name[i..]
  {
    var i := LastIndexOf(name, '.', 0, |name|);
    LastIndexOfIsLast(name, '.', 0, |name|);
    if 0 < i < |name| - 1 then name[i..] else ""
  }

  predicate IsSupportedFormat(suffix: string) {
    Lower(suffix) in SupportedFormats
  }

  /** A file as `chunk_file` sees it; the file system is not part of this
      model, so existence and size are given. The path is taken in the form
      `Path` normalises it to, with no trailing separator. */
  datatype FileRef = FileRef(path: string, present: bool, size: nat) {
    /** `Path(path).name`: the final component, after the last `/`. */
    function Name(): (r: string)
      ensures EndsWith(path, r) && forall k :: 0 <= k < |r| ==> r[k] != '/'
      ensures |r| < |path| ==> path[|path| - |r| - 1] == '/'
    {
      var i := LastIndexOf(path, '/', 0, |path|);
      LastIndexOfIsLast(path, '/', 0, |path|);
      path[i + 1..]
    }
  }

  /** Statistics of a chunk list (the float average is not modelled). */
  datatype ChunkStats = ChunkStats(totalChunks: nat, totalCharacters: nat, minChunkSize: nat, maxChunkSize: nat)

  function TotalLength(chunks: seq<Chunk>): nat {
    if chunks == [] then 0 else |chunks[0].text| + TotalLength(chunks[1..])
  }

  function MinLength(chunks: seq<Chunk>): (m: nat)
    requires chunks != []
    ensures exists i :: 0 <= i < |chunks| && |chunks[i].text| == m
    ensures forall i :: 0 <= i < |chunks| ==> m <= |chunks[i].text|
  {
    if |chunks| == 1 then |chunks[0].text|
    else
      var rest := MinLength(chunks[1..]);
      assert forall i :: 1 <= i < |chunks| ==> chunks[i] == chunks[1..][i - 1];
      if |chunks[0].text| <= rest then |chunks[0].text| else rest
  }

  function MaxLength(chunks: seq<Chunk>): (m: nat)
    requires chunks != []
    ensures exists i :: 0 <= i < |chunks| && |chunks[i].text| == m
    ensures forall i :: 0 <= i < |chunks| ==> |chunks[i].text| <= m
  {
    if |chunks| == 1 then |chunks[0].text|
    else
      var rest := MaxLength(chunks[1..]);
      assert forall i :: 1 <= i < |chunks| ==> chunks[i] == chunks[1..][i - 1];
      if |chunks[0].text| >= rest then |chunks[0].text| else rest
  }

  /** `get_chunk_statistics` without `average_chunk_size`. */
  function ChunkStatistics(chunks: seq<Chunk>): (s: ChunkStats)
    ensures chunks == [] ==> s == ChunkStats(0, 0, 0, 0)
    ensures chunks != [] ==> s.totalChunks == |chunks| && s.totalCharacters == TotalLength(chunks)
    ensures chunks != [] ==> s.minChunkSize <= s.maxChunkSize
    ensures forall i :: 0 <= i < |chunks| ==> s.minChunkSize <= |chunks[i].text| <= s.maxChunkSize
    ensures chunks != [] ==>
              && (exists i :: 0 <= i < |chunks| && |chunks[i].text| == s.minChunkSize)
              && (exists i :: 0 <= i < |chunks| && |chunks[i].text| == s.maxChunkSize)
  {
    if chunks == [] then ChunkStats(0, 0, 0, 0)
    else ChunkStats(|chunks|, TotalLength(chunks), MinLength(chunks), MaxLength(chunks))
  }

  /** Lines 87-89: the pass that stores the final count in every chunk. */
  method SetTotals(emitted: seq<Chunk>) returns (chunks: seq<Chunk>)
    ensures chunks == WithTotal(emitted)
  {
    chunks := emitted;
    var n := |chunks|;
    var i := 0;
    while i < n
      invariant 0 <= i <= n == |chunks|
      invariant forall k :: 0 <= k < n ==>
                  chunks[k] == if k < i then emitted[k].(meta := emitted[k].meta.(totalChunks := n)) else emitted[k]
    {
      chunks := chunks[i := chunks[i].(meta := chunks[i].meta.(totalChunks := n))];
      i := i + 1;
    }
  }

  class DocumentChunker {
    const chunkSize: int
    const chunkOverlap: nat

    constructor (chunkSize: int, chunkOverlap: nat)
      ensures this.chunkSize == chunkSize && this.chunkOverlap == chunkOverlap
    {
      this.chunkSize := chunkSize;
      this.chunkOverlap := chunkOverlap;
    }

    /** Lines 55-63: where the window starting at `start` is cut. */
    method WindowEnd(text: string, start: nat) returns (end: int)
      ensures end == NextEnd(text, start, chunkSize)
    {
      end := start + chunkSize;
      if end < |text| {
        var searchStart := Max(start, end - SentenceWindow);
        var sentenceEnd := LastIndexOf(text, '.', searchStart, end);
        if sentenceEnd > start {
          end := sentenceEnd + 1;
        }
      }
    }

    /** The cursor loop of `chunk_text`: cut a window, keep its trimmed text
        when it is not blank, and step back by the overlap. */
    method Cut(text: string, source: string) returns (chunks: seq<Chunk>)
      requires Progresses(chunkSize, chunkOverlap)
      ensures chunks == Run(text, 0, chunkSize, chunkOverlap, source, 0)
    {
      chunks := [];
      var start: nat := 0;
      var chunkId: nat := 0;
      ghost var all := Run(text, 0, chunkSize, chunkOverlap, source, 0);
      while start < |text|
        invariant chunkId == |chunks|
        invariant all == chunks + Run(text, start, chunkSize, chunkOverlap, source, chunkId)
        decreases |text| - start
      {
        var end := WindowEnd(text, start);
        var piece := Piece(text, start, end);
        ghost var before, id, at := chunks, chunkId, start;
        if piece != [] {
          chunks := chunks + [Chunk(piece, start, end, chunkId, ChunkMeta(|piece|, source, 0, None))];
          chunkId := chunkId + 1;
        }
        start := end - chunkOverlap;
        RunStep(text, at, end, chunkSize, chunkOverlap, source, all, before, id, chunks, chunkId, start);
        if start >= |text| {
          break;
        }
      }
      assert Windows(text, start, chunkSize, chunkOverlap) == [];
    }

    /** `chunk_text`: nothing for a blank text, otherwise the cursor loop
        and then the pass that fills in `total_chunks`. */
    method ChunkText(text: string, source: string) returns (chunks: seq<Chunk>)
      requires Progresses(chunkSize, chunkOverlap)
      ensures chunks == ChunkTextSpec(text, chunkSize, chunkOverlap, source)
    {
      StripBlank(text);
      if Strip(text) == [] {
        return [];
      }
      chunks := Cut(text, source);
      chunks := SetTotals(chunks);
    }

    /** `chunk_file` once the file's text has been extracted (or the
        extraction failed): the existence and format checks, then
        `chunk_text` with the path as source and the file details added to
        every chunk. */
    method ChunkFile(file: FileRef, extracted: Result<string, string>) returns (r: Result<seq<Chunk>, ChunkError>)
      requires Progresses(chunkSize, chunkOverlap)
      ensures !file.present ==> r == Err(FileNotFound(file.path))
      ensures file.present && !IsSupportedFormat(Suffix(file.Name())) ==> r == Err(UnsupportedFormat(Suffix(file.Name())))
      ensures file.present && IsSupportedFormat(Suffix(file.Name())) && extracted.Err? ==>
                r == Err(ExtractionFailed(extracted.error))
      ensures file.present && IsSupportedFormat(Suffix(file.Name())) && extracted.Ok? ==>
                var plain := ChunkTextSpec(extracted.value, chunkSize, chunkOverlap, file.path);
                var info := FileInfo(file.Name(), file.path, Lower(Suffix(file.Name())), file.size);
                r.Ok? && |r.value| == |plain|
                && forall i :: 0 <= i < |plain| ==> r.value[i] == plain[i].(meta := plain[i].meta.(file := Some(info)))
    {
      if !file.present {
        return Err(FileNotFound(file.path));
      }
      var name := file.Name();
      var suffix := Suffix(name);
      if !IsSupportedFormat(suffix) {
        return Err(UnsupportedFormat(suffix));
      }
      if extracted.Err? {
        return Err(ExtractionFailed(extracted.error));
      }
      var text := extracted.value;
      StripBlank(text);
      if Strip(text) == [] {
        return Ok([]);
      }
      var chunks := ChunkText(text, file.path);
      var info := FileInfo(name, file.path, Lower(suffix), file.size);
      chunks := AddFileInfo(chunks, info);
      r := Ok(chunks);
    }

    /** The loop of `chunk_file` that adds the file details to the metadata
        of every chunk, in place. */
    method AddFileInfo(chunks: seq<Chunk>, info: FileInfo) returns (r: seq<Chunk>)
      ensures |r| == |chunks|
      ensures forall k :: 0 <= k < |chunks| ==> r[k] == chunks[k].(meta := chunks[k].meta.(file := Some(info)))
    {
      r := chunks;
      var i := 0;
      while i < |r|
        invariant 0 <= i <= |r| == |chunks|
        invariant forall k :: 0 <= k < |r| ==>
                    r[k] == if k < i then chunks[k].(meta := chunks[k].meta.(file := Some(info))) else chunks[k]
      {
        r := r[i := r[i].(meta := r[i].meta.(file := Some(info)))];
        i := i + 1;
      }
    }
  }
}
