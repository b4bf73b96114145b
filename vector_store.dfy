/** The bookkeeping of the vector database service around its collection:
    which chunks an upload stores and with what metadata, how query results
    are formatted, how documents are listed, fetched and deleted, and the
    health report. The collection is an in-memory sequence of records;
    embeddings and similarity ranking are not modelled, so a similarity
    query's raw result is an input. */
module VectorStore {
  import opened Common
  import opened Text
  import Chunker

  /** A record's metadata as the collection returns it; any key may be
      missing. */
  datatype Meta = Meta(filename: Option<string>, chunkId: Option<int>, chunkSize: Option<int>,
                       startPos: Option<int>, endPos: Option<int>, fileType: Option<string>,
                       source: Option<string>)

  /** The `{}` used when a query result carries no metadata. */
  const EmptyMeta: Meta := Meta(None, None, None, None, None, None, None)

  /** A stored record. The id stands for the `uuid4` generated for it. */
  datatype Record = Record(id: nat, text: string, meta: Meta)

  // ---------------------------------------------------------------------
  // add_documents

  /** The nested `metadata` dictionary of an incoming chunk. */
  datatype ChunkInfo = ChunkInfo(fileType: Option<string>, source: Option<string>)

  /** A chunk dictionary handed to `add_documents`; any key may be missing. */
  datatype InputChunk = InputChunk(text: Option<string>, chunkId: Option<int>, startPos: Option<int>,
                                   endPos: Option<int>, metadata: Option<ChunkInfo>)

  /** `chunk.get('text', '')`. */
  function TextOf(c: InputChunk): string {
    c.text.GetOr("")
  }

  /** Whether the chunk survives `if not text.strip(): continue`. */
  predicate Kept(c: InputChunk) {
    !IsBlank(TextOf(c))
  }

  /** The metadata stored for a surviving chunk. */
  function MetaFor(c: InputChunk, filename: string): Meta {
    var info := c.metadata.GetOr(ChunkInfo(None, None));
    Meta(Some(filename), Some(c.chunkId.GetOr(0)), Some(|TextOf(c)|), Some(c.startPos.GetOr(0)),
         Some(c.endPos.GetOr(0)), Some(info.fileType.GetOr("unknown")), Some(info.source.GetOr("upload")))
  }

  /** The records built from `chunks` when the i-th chunk's generated id is
      `firstId + i`: one per surviving chunk, in input order. */
  function Prepared(chunks: seq<InputChunk>, filename: string, firstId: nat): seq<Record>
  {
    if chunks == [] then []
    else
      var n := |chunks| - 1;
      Prepared(chunks[..n], filename, firstId)
      + (if Kept(chunks[n]) then [Record(firstId + n, TextOf(chunks[n]), MetaFor(chunks[n], filename))] else [])
  }

  /** Each stored record comes from a surviving chunk of the upload: its id
      is `firstId` plus the chunk's index, and it holds the chunk's text and
      the metadata built for it; there are no more records than chunks. */
  lemma {:induction false} PreparedSound(chunks: seq<InputChunk>, filename: string, firstId: nat)
    ensures |Prepared(chunks, filename, firstId)| <= |chunks|
    ensures forall k :: 0 <= k < |Prepared(chunks, filename, firstId)| ==>
              firstId <= Prepared(chunks, filename, firstId)[k].id < firstId + |chunks|
              && Kept(chunks[Prepared(chunks, filename, firstId)[k].id - firstId])
              && Prepared(chunks, filename, firstId)[k].text
                 == TextOf(chunks[Prepared(chunks, filename, firstId)[k].id - firstId])
              && Prepared(chunks, filename, firstId)[k].meta
                 == MetaFor(chunks[Prepared(chunks, filename, firstId)[k].id - firstId], filename)
  {
    if chunks != [] {
      var n := |chunks| - 1;
      PreparedSound(chunks[..n], filename, firstId);
      assert forall i :: 0 <= i < n ==> chunks[..n][i] == chunks[i];
    }
  }

  /** The records of an upload carry strictly increasing ids. */
  lemma {:induction false} PreparedIncreasing(chunks: seq<InputChunk>, filename: string, firstId: nat)
    ensures forall k, l :: 0 <= k < l < |Prepared(chunks, filename, firstId)| ==>
              Prepared(chunks, filename, firstId)[k].id < Prepared(chunks, filename, firstId)[l].id
  {
    if chunks != [] {
      var n := |chunks| - 1;
      PreparedIncreasing(chunks[..n], filename, firstId);
      PreparedSound(chunks[..n], filename, firstId);
    }
  }

  /** Every chunk whose text is not blank is stored. */
  lemma {:induction false} PreparedComplete(chunks: seq<InputChunk>, filename: string, firstId: nat)
    ensures forall i :: 0 <= i < |chunks| && Kept(chunks[i]) ==>
              Record(firstId + i, TextOf(chunks[i]), MetaFor(chunks[i], filename)) in Prepared(chunks, filename, firstId)
  {
    if chunks != [] {
      var n := |chunks| - 1;
      PreparedComplete(chunks[..n], filename, firstId);
      assert forall i :: 0 <= i < n ==> chunks[..n][i] == chunks[i];
    }
  }

  /** An upload stores nothing exactly when every chunk is blank. */
  lemma PreparedEmpty(chunks: seq<InputChunk>, filename: string, firstId: nat)
    ensures Prepared(chunks, filename, firstId) == [] <==> forall i :: 0 <= i < |chunks| ==> !Kept(chunks[i])
  {
    PreparedSound(chunks, filename, firstId);
    PreparedComplete(chunks, filename, firstId);
  }

  /** A stored record's text is never blank, and its metadata records the
      upload's filename and the text's length. */
  lemma PreparedRecords(chunks: seq<InputChunk>, filename: string, firstId: nat)
    ensures forall r :: r in Prepared(chunks, filename, firstId) ==>
              !IsBlank(r.text) && r.meta.filename == Some(filename) && r.meta.chunkSize == Some(|r.text|)
  {
    PreparedSound(chunks, filename, firstId);
  }

  /** Appending an upload's records to a collection whose ids are unique and
      below `firstId` keeps the ids unique and below `firstId + |chunks|`. */
  lemma AppendPrepared(rs: seq<Record>, chunks: seq<InputChunk>, filename: string, firstId: nat)
    requires UniqueIds(rs) && forall k :: 0 <= k < |rs| ==> rs[k].id < firstId
    ensures UniqueIds(rs + Prepared(chunks, filename, firstId))
    ensures forall k :: 0 <= k < |rs + Prepared(chunks, filename, firstId)| ==>
              (rs + Prepared(chunks, filename, firstId))[k].id < firstId + |chunks|
  {
    PreparedSound(chunks, filename, firstId);
    PreparedIncreasing(chunks, filename, firstId);
  }

  /** `zip(documents, metadatas, ids)` as the collection stores them. */
  function Zip(documents: seq<string>, metadatas: seq<Meta>, ids: seq<nat>): (r: seq<Record>)
    requires |documents| == |metadatas| == |ids|
    ensures |r| == |ids|
    ensures forall k :: 0 <= k < |r| ==> r[k] == Record(ids[k], documents[k], metadatas[k])
  {
    seq(|ids|, k requires 0 <= k < |ids| => Record(ids[k], documents[k], metadatas[k]))
  }

  lemma ZipSnoc(documents: seq<string>, metadatas: seq<Meta>, ids: seq<nat>, d: string, m: Meta, id: nat)
    requires |documents| == |metadatas| == |ids|
    ensures Zip(documents + [d], metadatas + [m], ids + [id]) == Zip(documents, metadatas, ids) + [Record(id, d, m)]
  {
    var l := Zip(documents + [d], metadatas + [m], ids + [id]);
    var r := Zip(documents, metadatas, ids) + [Record(id, d, m)];
    assert |l| == |r|;
    forall k | 0 <= k < |l| ensures l[k] == r[k] {
      if k < |ids| {
        assert (ids + [id])[k] == ids[k] && (documents + [d])[k] == documents[k] && (metadatas + [m])[k] == metadatas[k];
      }
    }
  }

  // ---------------------------------------------------------------------
  // search_similar

  /** The raw answer of a similarity query: for each query text a list of
      documents, and optionally metadatas, distances and ids. */
  datatype QueryResults = QueryResults(documents: Option<seq<seq<string>>>, metadatas: Option<seq<seq<Meta>>>,
                                       distances: Option<seq<seq<real>>>, ids: Option<seq<seq<nat>>>)

  /** One formatted search result. */
  datatype Hit = Hit(text: string, meta: Meta, distance: Option<real>, id: Option<nat>)

  /** Python's truth value of an optional list. */
  predicate Present<T>(xs: Option<seq<T>>) {
    xs.Some? && |xs.value| > 0
  }

  /** Whether `xs[0][i]` would raise although `xs` is present. */
  predicate Missing<T>(xs: Option<seq<seq<T>>>, i: nat) {
    Present(xs) && i >= |xs.value[0]|
  }

  /** Whether formatting the `i`-th document raises an index error. */
  predicate Raises(results: QueryResults, i: nat) {
    Missing(results.metadatas, i) || Missing(results.distances, i) || Missing(results.ids, i)
  }

  /** The formatted `i`-th result, when no column is short. */
  function HitAt(results: QueryResults, i: nat): Hit
    requires Present(results.documents) && i < |results.documents.value[0]| && !Raises(results, i)
  {
    Hit(results.documents.value[0][i],
        if Present(results.metadatas) then results.metadatas.value[0][i] else EmptyMeta,
        Some(if Present(results.distances) then results.distances.value[0][i] else 0.0),
        if Present(results.ids) then Some(results.ids.value[0][i]) else None)
  }

  /** `search_similar`: `results` is `None` when the query itself raised. */
  function SearchSimilar(results: Option<QueryResults>): seq<Hit> {
    if results.None? || !Present(results.value.documents) then []
    else
      var docs := results.value.documents.value[0];
      if exists i :: 0 <= i < |docs| && Raises(results.value, i) then []
      else seq(|docs|, i requires 0 <= i < |docs| => HitAt(results.value, i))
  }

  /** The search results pair the i-th document with the i-th metadata,
      distance and id, falling back to `{}`, 0 and `None` for absent
      columns; nothing is returned exactly when the query failed, found no
      document, or a present column is too short for some document. */
  lemma SearchSimilarSpec(results: Option<QueryResults>)
    ensures SearchSimilar(results) == []
            <==> results.None? || !Present(results.value.documents) || results.value.documents.value[0] == []
                 || exists i :: 0 <= i < |results.value.documents.value[0]| && Raises(results.value, i)
    ensures SearchSimilar(results) != [] ==>
              |SearchSimilar(results)| == |results.value.documents.value[0]|
              && forall i :: 0 <= i < |SearchSimilar(results)| ==>
                   !Raises(results.value, i)
                   && SearchSimilar(results)[i].text == results.value.documents.value[0][i]
                   && SearchSimilar(results)[i].meta
                      == (if Present(results.value.metadatas) then results.value.metadatas.value[0][i] else EmptyMeta)
                   && SearchSimilar(results)[i].distance
                      == Some(if Present(results.value.distances) then results.value.distances.value[0][i] else 0.0)
                   && SearchSimilar(results)[i].id
                      == (if Present(results.value.ids) then Some(results.value.ids.value[0][i]) else None)
  {
  }

  // ---------------------------------------------------------------------
  // list_documents

  /** One entry of `list_documents`. */
  datatype DocSummary = DocSummary(filename: string, fileType: string, chunkCount: nat, totalSize: int)

  /** `metadata.get('filename', 'unknown')`. */
  function NameOf(r: Record): string {
    r.meta.filename.GetOr("unknown")
  }

  function NamedAs(name: string): Record -> bool {
    (r: Record) => NameOf(r) == name
  }

  /** `metadata.get('chunk_size', 0)`. */
  function SizeOf(r: Record): int {
    r.meta.chunkSize.GetOr(0)
  }

  /** The first entry counted for a record whose name is new. */
  function Fresh(r: Record): DocSummary {
    DocSummary(NameOf(r), r.meta.fileType.GetOr("unknown"), 1, SizeOf(r))
  }

  /** An entry after counting one more record of its name. */
  function Bump(d: DocSummary, r: Record): DocSummary {
    d.(chunkCount := d.chunkCount + 1, totalSize := d.totalSize + SizeOf(r))
  }

  /** The distinct names of `rs` in the order they first appear: the
      insertion order of the `documents` dictionary. */
  function FirstSeen(rs: seq<Record>): seq<string> {
    if rs == [] then []
    else
      var n := |rs| - 1;
      var seen := FirstSeen(rs[..n]);
      if NameOf(rs[n]) in seen then seen else seen + [NameOf(rs[n])]
  }

  /** The `documents` dictionary after counting `rs`. */
  function Summaries(rs: seq<Record>): map<string, DocSummary> {
    if rs == [] then map[]
    else
      var n := |rs| - 1;
      var m := Summaries(rs[..n]);
      var name := NameOf(rs[n]);
      if name !in m then m[name := Fresh(rs[n])] else m[name := Bump(m[name], rs[n])]
  }

  /** The sum of the chunk sizes of `rs`, a missing size counting 0. */
  function SizeSum(rs: seq<Record>): int {
    if rs == [] then 0 else SizeSum(rs[..|rs| - 1]) + SizeOf(rs[|rs| - 1])
  }

  predicate Distinct<T(==)>(s: seq<T>) {
    forall i, j :: 0 <= i < j < |s| ==> s[i] != s[j]
  }

  /** The names summarised are exactly the names of the records, each listed
      once, and they are the dictionary's keys. */
  lemma {:induction false} FirstSeenSpec(rs: seq<Record>)
    ensures Distinct(FirstSeen(rs))
    ensures forall f :: f in FirstSeen(rs) <==> exists k :: 0 <= k < |rs| && NameOf(rs[k]) == f
    ensures forall f :: f in Summaries(rs) <==> f in FirstSeen(rs)
  {
    if rs != [] {
      var n := |rs| - 1;
      FirstSeenSpec(rs[..n]);
      assert forall k :: 0 <= k < n ==> rs[..n][k] == rs[k];
    }
  }

  /** A name without an entry names no record. */
  lemma NoneNamed(rs: seq<Record>, f: string)
    requires f !in Summaries(rs)
    ensures Filter(rs, NamedAs(f)) == []
  {
    FirstSeenSpec(rs);
    FilterNone(rs, NamedAs(f));
  }

  /** The entry of name `f` is what counting the records of that name gives:
      `f` itself, the file type of its first record, the number of its
      records and the sum of their sizes. */
  lemma {:induction false} SummaryOf(rs: seq<Record>, f: string)
    requires f in Summaries(rs)
    ensures Filter(rs, NamedAs(f)) != []
    ensures Summaries(rs)[f]
            == DocSummary(f, Filter(rs, NamedAs(f))[0].meta.fileType.GetOr("unknown"),
                          |Filter(rs, NamedAs(f))|, SizeSum(Filter(rs, NamedAs(f))))
  {
    var n := |rs| - 1;
    var prefix := rs[..n];
    var last := rs[n];
    assert rs == prefix + [last];
    FilterAppend(prefix, [last], NamedAs(f));
    var named := Filter(prefix, NamedAs(f));
    if NameOf(last) == f {
      assert Filter([last], NamedAs(f)) == [last];
      assert (named + [last])[..|named|] == named;
      if f in Summaries(prefix) {
        SummaryOf(prefix, f);
      } else {
        NoneNamed(prefix, f);
        assert named + [last] == [last];
      }
    } else {
      assert Filter([last], NamedAs(f)) == [];
      assert named + [] == named;
      SummaryOf(prefix, f);
    }
  }

  /** What `list_documents` returns for records `rs`. */
  function Listed(rs: seq<Record>): (docs: seq<DocSummary>)
    ensures |docs| == |FirstSeen(rs)|
  {
    FirstSeenSpec(rs);
    var order := FirstSeen(rs);
    var m := Summaries(rs);
    seq(|order|, k requires 0 <= k < |order| => m[order[k]])
  }

  /** `list_documents` lists each distinct filename once, in first-seen
      order, with the summary of its records, and every record's name is
      listed. */
  lemma ListedSpec(rs: seq<Record>)
    ensures forall k :: 0 <= k < |Listed(rs)| ==>
              Listed(rs)[k].filename == FirstSeen(rs)[k]
              && Listed(rs)[k].chunkCount == |Filter(rs, NamedAs(FirstSeen(rs)[k]))|
              && Listed(rs)[k].totalSize == SizeSum(Filter(rs, NamedAs(FirstSeen(rs)[k])))
    ensures forall k, l :: 0 <= k < l < |Listed(rs)| ==> Listed(rs)[k].filename != Listed(rs)[l].filename
    ensures forall r :: r in rs ==> exists k :: 0 <= k < |Listed(rs)| && Listed(rs)[k].filename == NameOf(r)
  {
    FirstSeenSpec(rs);
    forall k | 0 <= k < |Listed(rs)|
      ensures Listed(rs)[k].filename == FirstSeen(rs)[k]
      ensures Listed(rs)[k].chunkCount == |Filter(rs, NamedAs(FirstSeen(rs)[k]))|
      ensures Listed(rs)[k].totalSize == SizeSum(Filter(rs, NamedAs(FirstSeen(rs)[k])))
    {
      SummaryOf(rs, FirstSeen(rs)[k]);
    }
    forall r | r in rs
      ensures exists k :: 0 <= k < |Listed(rs)| && Listed(rs)[k].filename == NameOf(r)
    {
      var j :| 0 <= j < |rs| && rs[j] == r;
      assert NameOf(r) in FirstSeen(rs);
      var k :| 0 <= k < |FirstSeen(rs)| && FirstSeen(rs)[k] == NameOf(r);
      SummaryOf(rs, FirstSeen(rs)[k]);
    }
  }

  /** The sum of the chunk counts of `docs`. */
  function CountSum(docs: seq<DocSummary>): int {
    if docs == [] then 0 else CountSum(docs[..|docs| - 1]) + docs[|docs| - 1].chunkCount
  }

  /** The sum of the counts in `m` of the names in `order`. */
  function CountOver(order: seq<string>, m: map<string, DocSummary>): int {
    if order == [] then 0
    else
      var f := order[|order| - 1];
      CountOver(order[..|order| - 1], m) + (if f in m then m[f].chunkCount else 0)
  }

  /** Changing the entry of one name changes the sum over a list holding
      that name once by the change of its count, and leaves the sum over a
      list without it alone. */
  lemma {:induction false} CountOverUpdate(order: seq<string>, m: map<string, DocSummary>, g: string, d: DocSummary)
    requires g in m
    requires Distinct(order)
    ensures g in order ==> CountOver(order, m[g := d]) == CountOver(order, m) - m[g].chunkCount + d.chunkCount
    ensures g !in order ==> CountOver(order, m[g := d]) == CountOver(order, m)
  {
    if order != [] {
      var n := |order| - 1;
      CountOverUpdate(order[..n], m, g, d);
      if order[n] == g {
        assert g !in order[..n];
      }
    }
  }

  /** Adding an entry for a name not yet listed leaves the sum over the
      list alone. */
  lemma {:induction false} CountOverAdd(order: seq<string>, m: map<string, DocSummary>, g: string, d: DocSummary)
    requires g !in order
    ensures CountOver(order, m[g := d]) == CountOver(order, m)
  {
    if order != [] {
      CountOverAdd(order[..|order| - 1], m, g, d);
    }
  }

  /** The counts add up to the number of records: every record is counted
      under exactly one name. */
  lemma {:induction false} CountsCoverRecords(rs: seq<Record>)
    ensures CountOver(FirstSeen(rs), Summaries(rs)) == |rs|
  {
    if rs != [] {
      var n := |rs| - 1;
      var prefix := rs[..n];
      CountsCoverRecords(prefix);
      FirstSeenSpec(prefix);
      var order := FirstSeen(prefix);
      var m := Summaries(prefix);
      var name := NameOf(rs[n]);
      if name !in m {
        CountOverAdd(order, m, name, Fresh(rs[n]));
        assert (order + [name])[..|order|] == order;
      } else {
        CountOverUpdate(order, m, name, Bump(m[name], rs[n]));
      }
    }
  }

  lemma {:induction false} CountSumListed(order: seq<string>, m: map<string, DocSummary>)
    requires forall f :: f in order ==> f in m
    ensures CountSum(seq(|order|, k requires 0 <= k < |order| => m[order[k]])) == CountOver(order, m)
  {
    var docs := seq(|order|, k requires 0 <= k < |order| => m[order[k]]);
    if order != [] {
      var n := |order| - 1;
      CountSumListed(order[..n], m);
      assert docs[..n] == seq(n, k requires 0 <= k < n => m[order[..n][k]]);
    }
  }

  /** The chunk counts that `list_documents` reports add up to the number of
      records in the collection. */
  lemma ListedCounts(rs: seq<Record>)
    ensures CountSum(Listed(rs)) == |rs|
  {
    FirstSeenSpec(rs);
    CountsCoverRecords(rs);
    CountSumListed(FirstSeen(rs), Summaries(rs));
  }

  /** One turn of the counting loop, in the form the loop takes it. */
  lemma CountStep(rs: seq<Record>, i: nat, order: seq<string>, documents: map<string, DocSummary>,
                  order': seq<string>, documents': map<string, DocSummary>)
    requires i < |rs|
    requires order == FirstSeen(rs[..i]) && documents == Summaries(rs[..i])
    requires NameOf(rs[i]) !in documents ==>
               documents' == documents[NameOf(rs[i]) := Fresh(rs[i])] && order' == order + [NameOf(rs[i])]
    requires NameOf(rs[i]) in documents ==>
               documents' == documents[NameOf(rs[i]) := Bump(documents[NameOf(rs[i])], rs[i])] && order' == order
    ensures order' == FirstSeen(rs[..i + 1]) && documents' == Summaries(rs[..i + 1])
  {
    FirstSeenSpec(rs[..i]);
    assert rs[..i + 1][..i] == rs[..i];
  }

  // ---------------------------------------------------------------------
  // The service

  function IdsOf(rs: seq<Record>): (ids: seq<nat>)
    ensures |ids| == |rs|
    ensures forall k :: 0 <= k < |rs| ==> ids[k] == rs[k].id
  {
    seq(|rs|, k requires 0 <= k < |rs| => rs[k].id)
  }

  /** No two records share an id. */
  predicate UniqueIds(rs: seq<Record>) {
    forall i, j :: 0 <= i < j < |rs| ==> rs[i].id != rs[j].id
  }

  function IdNotIn(ids: seq<nat>): Record -> bool {
    (r: Record) => r.id !in ids
  }

  /** The filter `collection.get(where={"filename": name})` applies: only
      records whose metadata carries exactly that filename match, so a
      record without one never matches, not even the name "unknown". */
  function FiledAs(name: string): Record -> bool {
    (r: Record) => r.meta.filename == Some(name)
  }

  function NotFiledAs(name: string): Record -> bool {
    (r: Record) => r.meta.filename != Some(name)
  }

  /** Deleting the ids of a document's records deletes exactly that
      document's records, since ids are unique. */
  lemma DeleteByIds(rs: seq<Record>, name: string)
    requires UniqueIds(rs)
    ensures Filter(rs, IdNotIn(IdsOf(Filter(rs, FiledAs(name))))) == Filter(rs, NotFiledAs(name))
  {
    var ids := IdsOf(Filter(rs, FiledAs(name)));
    forall i | 0 <= i < |rs|
      ensures IdNotIn(ids)(rs[i]) == NotFiledAs(name)(rs[i])
    {
      if rs[i].meta.filename == Some(name) {
        assert rs[i] in Filter(rs, FiledAs(name));
        var j :| 0 <= j < |Filter(rs, FiledAs(name))| && Filter(rs, FiledAs(name))[j] == rs[i];
        assert ids[j] == rs[i].id;
      } else if rs[i].id in ids {
        var j :| 0 <= j < |ids| && ids[j] == rs[i].id;
        var r := Filter(rs, FiledAs(name))[j];
        assert r in rs;
        var k :| 0 <= k < |rs| && rs[k] == r;
        assert false;
      }
    }
    FilterAgree(rs, IdNotIn(ids), NotFiledAs(name));
  }

  /** Deleting a document removes every record carrying its filename and
      keeps exactly the others, at their positions' order; a second deletion
      finds nothing. */
  lemma DeletedSpec(rs: seq<Record>, name: string)
    ensures forall r :: r in Filter(rs, NotFiledAs(name)) <==> r in rs && r.meta.filename != Some(name)
    ensures Selects(Filter(rs, NotFiledAs(name)), rs, NotFiledAs(name))
    ensures Filter(Filter(rs, NotFiledAs(name)), FiledAs(name)) == []
  {
    FilterSelects(rs, NotFiledAs(name));
    FilterExcluded(rs, NotFiledAs(name), FiledAs(name));
  }

  /** Removing records keeps the remaining ids unique and below any bound
      of the old ones. */
  lemma FilterKeepsIds(rs: seq<Record>, p: Record -> bool, bound: nat)
    requires UniqueIds(rs) && forall k :: 0 <= k < |rs| ==> rs[k].id < bound
    ensures UniqueIds(Filter(rs, p)) && forall k :: 0 <= k < |Filter(rs, p)| ==> Filter(rs, p)[k].id < bound
  {
    FilterKeepsOrder(rs, p, (a: Record, b: Record) => a.id != b.id);
    forall k | 0 <= k < |Filter(rs, p)|
      ensures Filter(rs, p)[k].id < bound
    {
      assert Filter(rs, p)[k] in rs;
    }
  }

  /** A number above every id of `rs`. */
  function IdBound(rs: seq<Record>): (b: nat)
    ensures forall k :: 0 <= k < |rs| ==> rs[k].id < b
  {
    if rs == [] then 0 else Max(IdBound(rs[..|rs| - 1]), rs[|rs| - 1].id + 1)
  }

  /** The health report for a collection of `count` records, or for one
      whose `count()` raised `error`. */
  function HealthReport(count: nat, error: Option<string>): string {
    match error
    case None => "healthy (documents: " + NatToString(count) + ")"
    case Some(message) => "unhealthy: " + message
  }

  /** The report says "healthy" exactly when the count succeeded, and then
      carries the count in decimal; otherwise it carries the error. */
  lemma HealthReportSpec(count: nat, error: Option<string>)
    ensures StartsWith(HealthReport(count, error), "healthy (documents: ") <==> error.None?
    ensures error.None? ==>
              EndsWith(HealthReport(count, error), NatToString(count) + ")")
    ensures error.Some? ==>
              StartsWith(HealthReport(count, error), "unhealthy: ") && EndsWith(HealthReport(count, error), error.value)
  {
    var r := HealthReport(count, error);
    if error.None? {
      assert r[..20] == "healthy (documents: ";
      assert r[|r| - |NatToString(count) + ")"|..] == NatToString(count) + ")";
    } else {
      assert r[0] == 'u';
      assert r[..11] == "unhealthy: ";
      assert r[|r| - |error.value|..] == error.value;
    }
  }

  class VectorDatabase {
    /** The collection's records, in insertion order. */
    var records: seq<Record>
    /** Where the next generated id starts: above every id ever used. */
    var nextId: nat

    ghost predicate Valid()
      reads this
    {
      UniqueIds(records) && forall k :: 0 <= k < |records| ==> records[k].id < nextId
    }

    /** Opens a collection that already holds `stored`. */
    constructor (stored: seq<Record>)
      requires UniqueIds(stored)
      ensures Valid()
      ensures records == stored
    {
      records := stored;
      nextId := IdBound(stored);
    }

    /** `add_documents(chunks, filename)`; `addFails` says whether the
        collection's `add` raises. */
    method AddDocuments(chunks: seq<InputChunk>, filename: string, addFails: bool) returns (ok: bool)
      requires Valid()
      modifies this
      ensures Valid()
      ensures ok <==> Prepared(chunks, filename, old(nextId)) != [] && !addFails
      ensures records == if ok then old(records) + Prepared(chunks, filename, old(nextId)) else old(records)
      ensures nextId == if ok then old(nextId) + |chunks| else old(nextId)
    {
      var documents: seq<string> := [];
      var metadatas: seq<Meta> := [];
      var ids: seq<nat> := [];
      var i := 0;
      while i < |chunks|
        invariant 0 <= i <= |chunks|
        invariant |documents| == |metadatas| == |ids|
        invariant Zip(documents, metadatas, ids) == Prepared(chunks[..i], filename, nextId)
        invariant records == old(records) && nextId == old(nextId)
      {
        var chunkId := nextId + i;
        var text := TextOf(chunks[i]);
        assert chunks[..i + 1][..i] == chunks[..i];
        if !IsBlank(text) {
          ZipSnoc(documents, metadatas, ids, text, MetaFor(chunks[i], filename), chunkId);
          documents := documents + [text];
          metadatas := metadatas + [MetaFor(chunks[i], filename)];
          ids := ids + [chunkId];
        }
        i := i + 1;
      }
      assert chunks[..|chunks|] == chunks;
      if documents == [] || addFails {
        return false;
      }
      AppendPrepared(records, chunks, filename, nextId);
      records := records + Zip(documents, metadatas, ids);
      nextId := nextId + |chunks|;
      ok := true;
    }

    /** `get_document_chunks(filename)`; `fails` says whether the
        collection's `get` raises. */
    function DocumentChunks(filename: string, fails: bool): seq<Record>
      reads this
    {
      if fails then [] else Filter(records, FiledAs(filename))
    }

    /** The chunks of a document are exactly the records carrying its
        filename, in the collection's order; a record without a filename is
        never returned. */
    lemma DocumentChunksSpec(filename: string)
      ensures forall r :: r in DocumentChunks(filename, false) <==> r in records && r.meta.filename == Some(filename)
      ensures Selects(DocumentChunks(filename, false), records, FiledAs(filename))
      ensures DocumentChunks(filename, true) == []
    {
      FilterSelects(records, FiledAs(filename));
    }

    /** `list_documents()`: the counting loop over the records' metadata. */
    method ListDocuments(fails: bool) returns (docs: seq<DocSummary>)
      ensures docs == if fails then [] else Listed(records)
    {
      if fails {
        return [];
      }
      var documents: map<string, DocSummary> := map[];
      var order: seq<string> := [];
      var i := 0;
      while i < |records|
        invariant 0 <= i <= |records|
        invariant order == FirstSeen(records[..i]) && documents == Summaries(records[..i])
      {
        var metadata := records[i].meta;
        var filename := metadata.filename.GetOr("unknown");
        ghost var order0, documents0 := order, documents;
        if filename !in documents {
          documents := documents[filename := DocSummary(filename, metadata.fileType.GetOr("unknown"), 1,
                                                        metadata.chunkSize.GetOr(0))];
          order := order + [filename];
        } else {
          var d := documents[filename];
          documents := documents[filename := d.(chunkCount := d.chunkCount + 1,
                                                 totalSize := d.totalSize + metadata.chunkSize.GetOr(0))];
        }
        CountStep(records, i, order0, documents0, order, documents);
        i := i + 1;
      }
      assert records[..|records|] == records;
      FirstSeenSpec(records);
      docs := seq(|order|, k requires 0 <= k < |order| => documents[order[k]]);
    }

    /** `delete_document(filename)`; `fails` says whether the collection
        raises. */
    method DeleteDocument(filename: string, fails: bool) returns (ok: bool)
      requires Valid()
      modifies this
      ensures Valid()
      ensures ok <==> !fails && exists r :: r in old(records) && r.meta.filename == Some(filename)
      ensures records == if ok then Filter(old(records), NotFiledAs(filename)) else old(records)
      ensures nextId == old(nextId)
    {
      if fails {
        return false;
      }
      var ids := IdsOf(Filter(records, FiledAs(filename)));
      if ids == [] {
        assert forall r :: r in records ==> r.meta.filename != Some(filename);
        return false;
      }
      assert Filter(records, FiledAs(filename))[0] in records;
      DeleteByIds(records, filename);
      FilterKeepsIds(records, IdNotIn(ids), nextId);
      records := Filter(records, IdNotIn(ids));
      ok := true;
    }

    /** `health_check()`; `error` is what `count()` raised, if anything. */
    function Health(error: Option<string>): string
      reads this
    {
      HealthReport(|records|, error)
    }
  }

  // ---------------------------------------------------------------------
  // Uploading what the chunker produced

  /** The dictionary the chunker hands over for one of its chunks. */
  function AsInput(c: Chunker.Chunk): InputChunk {
    InputChunk(Some(c.text), Some(c.chunkId), Some(c.startPos), Some(c.endPos),
               Some(ChunkInfo(if c.meta.file.Some? then Some(c.meta.file.value.fileType) else None,
                              Some(c.meta.source))))
  }

  function AsInputs(cs: seq<Chunker.Chunk>): (r: seq<InputChunk>)
    ensures |r| == |cs|
    ensures forall k :: 0 <= k < |cs| ==> r[k] == AsInput(cs[k])
  {
    seq(|cs|, k requires 0 <= k < |cs| => AsInput(cs[k]))
  }

  /** Uploading the chunks the chunker cut from a text stores every one of
      them: none is blank, so the store gains one record per chunk, in
      order, each with the chunk's text. */
  lemma UploadKeepsEveryChunk(text: string, chunkSize: int, overlap: nat, source: string,
                              filename: string, firstId: nat)
    requires Chunker.Progresses(chunkSize, overlap)
    ensures |Prepared(AsInputs(Chunker.ChunkTextSpec(text, chunkSize, overlap, source)), filename, firstId)|
            == |Chunker.ChunkTextSpec(text, chunkSize, overlap, source)|
    ensures forall k :: 0 <= k < |Chunker.ChunkTextSpec(text, chunkSize, overlap, source)| ==>
              Prepared(AsInputs(Chunker.ChunkTextSpec(text, chunkSize, overlap, source)), filename, firstId)[k].text
              == Chunker.ChunkTextSpec(text, chunkSize, overlap, source)[k].text
  {
    var cs := Chunker.ChunkTextSpec(text, chunkSize, overlap, source);
    var inputs := AsInputs(cs);
    Chunker.ChunkTextShape(text, chunkSize, overlap, source);
    forall k | 0 <= k < |cs|
      ensures Kept(inputs[k])
    {
      var lo := Min(cs[k].startPos, |text|);
      StripNotBlank(text[lo..Max(lo, Min(cs[k].endPos, |text|))]);
    }
    AllKept(inputs, filename, firstId);
  }

  /** When no chunk is blank, every chunk is stored, under consecutive ids. */
  lemma {:induction false} AllKept(chunks: seq<InputChunk>, filename: string, firstId: nat)
    requires forall i :: 0 <= i < |chunks| ==> Kept(chunks[i])
    ensures |Prepared(chunks, filename, firstId)| == |chunks|
    ensures forall k :: 0 <= k < |chunks| ==>
              Prepared(chunks, filename, firstId)[k] == Record(firstId + k, TextOf(chunks[k]), MetaFor(chunks[k], filename))
  {
    if chunks != [] {
      var n := |chunks| - 1;
      AllKept(chunks[..n], filename, firstId);
    }
  }
}
