/** The older chunker of `scripts/chunker.py`: the same cursor loop as the
    service's chunker, numbering each chunk by the length of the list so
    far and recording only the piece's length and a fixed source. */
module LegacyChunker {
  import opened Common
  import opened Text
  import opened Chunker

  /** The source recorded in every chunk. */
  const TextInput: string := "text_input"

  /** A chunk of the older chunker: its metadata holds `chunk_size` and
      `source` only. */
  datatype LegacyChunk = LegacyChunk(text: string, startPos: nat, endPos: int, chunkId: nat, chunkSize: nat, source: string)

  /** The older chunk corresponding to a chunk of the service's chunker. */
  function Project(c: Chunk): LegacyChunk {
    LegacyChunk(c.text, c.startPos, c.endPos, c.chunkId, c.meta.chunkSize, c.meta.source)
  }

  function Projected(cs: seq<Chunk>): (r: seq<LegacyChunk>)
    ensures |r| == |cs|
    ensures forall i :: 0 <= i < |cs| ==> r[i] == Project(cs[i])
  {
    seq(|cs|, i requires 0 <= i < |cs| => Project(cs[i]))
  }

  lemma ProjectedSnoc(cs: seq<Chunk>, c: Chunk)
    ensures Projected(cs + [c]) == Projected(cs) + [Project(c)]
  {
    assert |Projected(cs + [c])| == |Projected(cs) + [Project(c)]|;
    forall i | 0 <= i < |cs| + 1
      ensures Projected(cs + [c])[i] == (Projected(cs) + [Project(c)])[i]
    {
      if i < |cs| {
        assert (cs + [c])[i] == cs[i];
      }
    }
  }

  /** What the older `chunk_text` returns. */
  function LegacyChunkText(text: string, chunkSize: int, overlap: nat): seq<LegacyChunk>
    requires Progresses(chunkSize, overlap)
  {
    if IsBlank(text) then [] else Projected(Run(text, 0, chunkSize, overlap, TextInput, 0))
  }

  /** The older chunker cuts exactly the chunks the service's chunker cuts
      for the default source: same text, span, number and length, without
      the count. */
  lemma LegacyAgreesWithService(text: string, chunkSize: int, overlap: nat)
    requires Progresses(chunkSize, overlap)
    ensures LegacyChunkText(text, chunkSize, overlap)
            == Projected(ChunkTextSpec(text, chunkSize, overlap, TextInput))
  {
    if !IsBlank(text) {
      var run := Run(text, 0, chunkSize, overlap, TextInput, 0);
      assert Projected(WithTotal(run)) == Projected(run);
    }
  }

  /** The properties of the older chunker, carried over from the service's
      chunker: nothing for a blank text; otherwise each chunk is the
      non-empty trimmed text of a window of at most `chunkSize` characters,
      `chunkSize` is its length, `chunkId` its index, the source
      `"text_input"`, and the windows start strictly later one after the
      other. */
  lemma LegacyShape(text: string, chunkSize: int, overlap: nat)
    requires Progresses(chunkSize, overlap)
    ensures IsBlank(text) ==> LegacyChunkText(text, chunkSize, overlap) == []
    ensures forall i :: 0 <= i < |LegacyChunkText(text, chunkSize, overlap)| ==>
              LegacyChunkText(text, chunkSize, overlap)[i].text
                == Piece(text, LegacyChunkText(text, chunkSize, overlap)[i].startPos,
                         LegacyChunkText(text, chunkSize, overlap)[i].endPos)
              && LegacyChunkText(text, chunkSize, overlap)[i].text != []
              && |LegacyChunkText(text, chunkSize, overlap)[i].text| <= chunkSize
              && LegacyChunkText(text, chunkSize, overlap)[i].endPos
                 <= LegacyChunkText(text, chunkSize, overlap)[i].startPos + chunkSize
              && LegacyChunkText(text, chunkSize, overlap)[i].chunkSize
                 == |LegacyChunkText(text, chunkSize, overlap)[i].text|
              && LegacyChunkText(text, chunkSize, overlap)[i].chunkId == i
              && LegacyChunkText(text, chunkSize, overlap)[i].source == TextInput
    ensures forall i, j :: 0 <= i < j < |LegacyChunkText(text, chunkSize, overlap)| ==>
              LegacyChunkText(text, chunkSize, overlap)[i].startPos
              < LegacyChunkText(text, chunkSize, overlap)[j].startPos
  {
    LegacyAgreesWithService(text, chunkSize, overlap);
    ChunkTextShape(text, chunkSize, overlap, TextInput);
  }

  class DocumentChunker {
    const chunkSize: int
    const chunkOverlap: nat

    constructor (chunkSize: int, chunkOverlap: nat)
      ensures this.chunkSize == chunkSize && this.chunkOverlap == chunkOverlap
    {
      this.chunkSize := chunkSize;
      this.chunkOverlap := chunkOverlap;
    }

    /** Lines 47-55: where the window starting at `start` is cut. */
    method WindowEnd(text: string, start: nat) returns (end: int)
      ensures end == NextEnd(text, start, chunkSize)
    {
      end := start + chunkSize;
      if end < |text| {
        var searchStart := Max(start, end - SentenceWindow);
        var sentenceEnd := LastIndexOf(text, '.', searchStart, end);
        if sentenceEnd > start {
          end := sentenceEnd + 1;
        }
      }
    }

    /** The cursor loop, numbering each kept chunk by the list's current
        length. */
    method Cut(text: string) returns (chunks: seq<LegacyChunk>)
      requires Progresses(chunkSize, chunkOverlap)
      ensures chunks == Projected(Run(text, 0, chunkSize, chunkOverlap, TextInput, 0))
    {
      chunks := [];
      var start: nat := 0;
      ghost var emitted: seq<Chunk> := [];
      ghost var all := Run(text, 0, chunkSize, chunkOverlap, TextInput, 0);
      while start < |text|
        invariant chunks == Projected(emitted)
        invariant all == emitted + Run(text, start, chunkSize, chunkOverlap, TextInput, |emitted|)
        decreases |text| - start
      {
        var end := WindowEnd(text, start);
        var piece := Piece(text, start, end);
        ghost var before, at := emitted, start;
        if piece != [] {
          var chunk := Chunk(piece, start, end, |chunks|, ChunkMeta(|piece|, TextInput, 0, None));
          ProjectedSnoc(emitted, chunk);
          chunks := chunks + [LegacyChunk(piece, start, end, |chunks|, |piece|, TextInput)];
          emitted := emitted + [chunk];
        }
        start := end - chunkOverlap;
        RunStep(text, at, end, chunkSize, chunkOverlap, TextInput, all, before, |before|, emitted, |emitted|, start);
        if start >= |text| {
          break;
        }
      }
      assert Windows(text, start, chunkSize, chunkOverlap) == [];
    }

    /** `chunk_text`: nothing for a blank text, otherwise the cursor loop. */
    method ChunkText(text: string) returns (chunks: seq<LegacyChunk>)
      requires Progresses(chunkSize, chunkOverlap)
      ensures chunks == LegacyChunkText(text, chunkSize, chunkOverlap)
    {
      StripBlank(text);
      if Strip(text) == [] {
        return [];
      }
      chunks := Cut(text);
    }
  }
}
