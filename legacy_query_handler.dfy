/** The stand-alone script's query handler: it records every question and
    answer with the user's id, takes the caller's context chunks or two
    fixed sample chunks, and answers with one of four canned templates,
    adding how many chunks it found when there were any. A chunk without a
    text makes the answer fail with the key error's text. */
module LegacyQueryService {
  import opened Common
  import opened Text
  import opened Conversation
  import Prompts

  // ---------------------------------------------------------------------
  // Context chunks

  /** A context chunk as the handler reads it: its `text`, absent when the
      dictionary has no such key, and its metadata. */
  datatype ContextChunk = ContextChunk(text: Option<string>, source: string, chunkId: nat, relevanceScore: real)

  const SampleText: string :=
    "This is a sample context chunk that would be retrieved from the vector "
    + "database based on semantic similarity to your query."

  const CourseText: string :=
    "Another relevant context chunk that provides additional information "
    + "related to your question."

  /** `_get_relevant_context(query)`: the same two chunks for every query. */
  const MockContext: seq<ContextChunk> :=
    [ContextChunk(Some(SampleText), "sample_document.pdf", 1, 0.95),
     ContextChunk(Some(CourseText), "course_materials.docx", 3, 0.87)]

  /** The chunks `process_query` answers from: the caller's, even an empty
      list, or the sample chunks when the caller passed none. */
  function ChunksFor(contextChunks: Option<seq<ContextChunk>>): seq<ContextChunk> {
    contextChunks.GetOr(MockContext)
  }

  predicate HasText(c: ContextChunk) {
    c.text.Some?
  }

  /** `str(KeyError('text'))`, raised by `chunk['text']`. */
  const MissingText: string := "'text'"

  /** `"\n".join([chunk['text'] for chunk in context_chunks])`: the joined
      texts, or the key error when a chunk has no text. */
  function ContextText(chunks: seq<ContextChunk>): (r: Result<string, string>)
    decreases |chunks|
  {
    if chunks == [] then Ok("")
    else if !HasText(chunks[0]) then Err(MissingText)
    else if |chunks| == 1 then Ok(chunks[0].text.value)
    else match ContextText(chunks[1..])
         case Ok(rest) => Ok(chunks[0].text.value + "\n" + rest)
         case Err(e) => Err(e)
  }

  /** The texts of chunks that all have one. */
  function Texts(chunks: seq<ContextChunk>): seq<string>
    requires forall i :: 0 <= i < |chunks| ==> HasText(chunks[i])
  {
    seq(|chunks|, i requires 0 <= i < |chunks| && HasText(chunks[i]) => chunks[i].text.value)
  }

  /** The chunks' texts join exactly when every chunk has a text, and then
      they join with line breaks; otherwise the error is the missing key. */
  lemma {:induction false} ContextTextSpec(chunks: seq<ContextChunk>)
    ensures ContextText(chunks).Ok? <==> forall i :: 0 <= i < |chunks| ==> HasText(chunks[i])
    ensures ContextText(chunks).Err? ==> ContextText(chunks).error == MissingText
    ensures ContextText(chunks).Ok? ==> ContextText(chunks).value == Join("\n", Texts(chunks))
    decreases |chunks|
  {
    if chunks != [] && HasText(chunks[0]) && |chunks| > 1 {
      ContextTextSpec(chunks[1..]);
      if ContextText(chunks[1..]).Ok? {
        assert Texts(chunks)[1..] == Texts(chunks[1..]);
      } else {
        var i :| 0 <= i < |chunks[1..]| && !HasText(chunks[1..][i]);
        assert !HasText(chunks[i + 1]);
      }
    }
  }

  // ---------------------------------------------------------------------
  // _generate_llm_response

  /** The four templates, cut around the quoted query. */
  const Befores: seq<string> :=
    ["Based on the course material, here's what I found regarding your question: '",
     "Great question! Looking at the uploaded materials, I can explain that '",
     "I'd be happy to help with '",
     "Excellent question about '"]

  const Afters: seq<string> :=
    ["'. The relevant information suggests that this is an important concept to understand.",
     "' relates to several key concepts covered in the course.",
     "'. From the course content, I can see this topic is covered in detail with practical examples.",
     "'! The materials show this is a fundamental concept with several applications we've discussed."]

  /** `len(query) % len(mock_responses)`. */
  function TemplateIndex(query: string): (k: nat)
    ensures k < 4 && k == |query| % 4
  {
    |query| % |Befores|
  }

  /** The template chosen for `query`, with the query quoted in it. */
  function Template(query: string): string {
    var k := TemplateIndex(query);
    Befores[k] + query + Afters[k]
  }

  const FoundOpening: string := "\n\nI found "

  const FoundClosing: string := " relevant sections in your course materials that address this topic."

  /** The sentence added when `n` chunks were given. */
  function FoundSentence(n: nat): string {
    FoundOpening + NatToString(n) + FoundClosing
  }

  /** `_generate_llm_response(query, context_chunks)`: the template, then
      the sentence counting the chunks when there are any; it raises the key
      error when a chunk has no text. */
  function GenerateResponse(query: string, chunks: seq<ContextChunk>): Result<string, string> {
    match ContextText(chunks)
    case Err(e) => Err(e)
    case Ok(_) => Ok(if chunks != [] then Template(query) + FoundSentence(|chunks|) else Template(query))
  }

  /** The response fails exactly when a chunk has no text. Otherwise it
      opens with the template picked by the query's length modulo 4 and
      quotes the query after the template's opening; it ends with the
      sentence counting the chunks exactly when there are some, and that
      sentence carries their number. */
  lemma GenerateResponseSpec(query: string, chunks: seq<ContextChunk>)
    ensures GenerateResponse(query, chunks).Ok? <==> forall i :: 0 <= i < |chunks| ==> HasText(chunks[i])
    ensures GenerateResponse(query, chunks).Err? ==> GenerateResponse(query, chunks).error == MissingText
    ensures GenerateResponse(query, chunks).Ok? ==>
              var r := GenerateResponse(query, chunks).value;
              var k := |query| % 4;
              && Prompts.HasAt(r, 0, Befores[k])
              && Prompts.HasAt(r, |Befores[k]|, query)
              && Prompts.HasAt(r, |Befores[k]| + |query|, Afters[k])
              && |r| == |Befores[k]| + |query| + |Afters[k]| + (if chunks == [] then 0 else |FoundSentence(|chunks|)|)
              && (chunks != [] ==> EndsWith(r, FoundClosing))
              && (chunks != [] ==> Prompts.HasAt(r, |Befores[k]| + |query| + |Afters[k]| + |FoundOpening|,
                                                 NatToString(|chunks|)))
  {
    ContextTextSpec(chunks);
    if GenerateResponse(query, chunks).Ok? {
      var k := TemplateIndex(query);
      if chunks == [] {
        Sections(Befores[k], query, Afters[k], "", "", "");
      } else {
        Sections(Befores[k], query, Afters[k], FoundOpening, NatToString(|chunks|), FoundClosing);
      }
    }
  }

  /** Where the pieces of a six-part concatenation sit. */
  lemma Sections(b: string, q: string, a: string, o: string, n: string, c: string)
    ensures Prompts.HasAt(b + q + a + (o + n + c), 0, b)
    ensures Prompts.HasAt(b + q + a + (o + n + c), |b|, q)
    ensures Prompts.HasAt(b + q + a + (o + n + c), |b| + |q|, a)
    ensures Prompts.HasAt(b + q + a + (o + n + c), |b| + |q| + |a| + |o|, n)
    ensures EndsWith(b + q + a + (o + n + c), c)
  {
    var s := b + q + a + (o + n + c);
    assert s[..|b|] == b;
    assert s[|b|..|b| + |q|] == q;
    assert s[|b| + |q|..|b| + |q| + |a|] == a;
    assert s[|b| + |q| + |a| + |o|..|b| + |q| + |a| + |o| + |n|] == n;
    assert s[|s| - |c|..] == c;
  }

  /** The sample chunks all have texts, so answering from them never fails,
      and the answer says two sections were found. */
  lemma MockContextAnswers(query: string)
    ensures GenerateResponse(query, MockContext).Ok?
    ensures GenerateResponse(query, MockContext).value == Template(query) + FoundSentence(2)
    ensures NatToString(|MockContext|) == "2"
  {
    assert HasText(MockContext[0]) && HasText(MockContext[1]);
    assert ContextText(MockContext[1..]) == Ok(CourseText);
  }

  // ---------------------------------------------------------------------
  // The handler

  class QueryHandler {
    /** `conversation_history`, oldest entry first. */
    var history: seq<Entry>
    /** The keys are kept but never used by the mock answers. */
    const llmApiKey: Option<string>
    const vectorDbKey: Option<string>

    ghost predicate Valid()
      reads this
    {
      |history| <= HistoryLimit
    }

    /** `QueryHandler(llm_api_key, vector_db_key)`: each key given, or when
        it is absent or empty the one from the environment, which is passed
        in as `llmEnv` and `vectorDbEnv`. */
    constructor (llmKey: Option<string>, vectorDbKey: Option<string>, llmEnv: Option<string>, vectorDbEnv: Option<string>)
      ensures Valid() && history == []
      ensures Truthy(llmKey) ==> llmApiKey == llmKey
      ensures !Truthy(llmKey) ==> llmApiKey == llmEnv
      ensures Truthy(vectorDbKey) ==> this.vectorDbKey == vectorDbKey
      ensures !Truthy(vectorDbKey) ==> this.vectorDbKey == vectorDbEnv
    {
      llmApiKey := if Truthy(llmKey) then llmKey else llmEnv;
      this.vectorDbKey := if Truthy(vectorDbKey) then vectorDbKey else vectorDbEnv;
      history := [];
    }

    /** `_add_to_history(message, role, user_id)`. */
    method AddToHistory(message: string, role: Role, userId: Option<string>)
      requires Valid()
      modifies this
      ensures Valid()
      ensures history == Appended(old(history), Entry(message, role, userId))
    {
      history := history + [Entry(message, role, userId)];
      if |history| > HistoryLimit {
        history := history[|history| - HistoryLimit..];
      }
    }

    /** `get_conversation_history(user_id)`: a user's entries in order, or
        every entry when no user is given. */
    function ConversationHistory(userId: Option<string>): (r: seq<Entry>)
      reads this
      ensures Truthy(userId) ==> forall e :: e in r <==> e in history && e.userId == userId
      ensures Truthy(userId) ==> Selects(r, history, OwnedBy(userId))
      ensures !Truthy(userId) ==> r == history
    {
      HistoryOfSpec(history, userId);
      HistoryOf(history, userId)
    }

    /** `clear_history(user_id)`. */
    method ClearHistory(userId: Option<string>)
      requires Valid()
      modifies this
      ensures Valid()
      ensures history == Cleared(old(history), userId)
    {
      if Truthy(userId) {
        history := Filter(history, NotOwnedBy(userId));
      } else {
        history := [];
      }
    }

    /** `process_query(query, user_id, context_chunks)`: the question is
        recorded first; when the answer can be built it is recorded too,
        with the same user id, and returned with the number of chunks used;
        when a chunk has no text only the question stays recorded and the
        apology carries the key error. Without chunks from the caller the
        answer always succeeds and counts the two sample chunks. */
    method ProcessQuery(query: string, userId: Option<string>, contextChunks: Option<seq<ContextChunk>>)
      returns (result: QueryResult)
      requires Valid()
      modifies this
      ensures Valid()
      ensures result.query == query && result.userId == userId
      ensures result.Answered? <==> forall c :: c in ChunksFor(contextChunks) ==> HasText(c)
      ensures result.Answered? ==>
                && GenerateResponse(query, ChunksFor(contextChunks)) == Ok(result.response)
                && result.contextChunksUsed == |ChunksFor(contextChunks)|
                && history == Appended(Appended(old(history), Entry(query, User, userId)),
                                       Entry(result.response, Assistant, userId))
      ensures result.Failed? ==>
                && result == Failed(Apology(MissingText), query, userId, MissingText)
                && history == Appended(old(history), Entry(query, User, userId))
      ensures contextChunks.None? ==> result.Answered? && result.contextChunksUsed == 2
    {
      AddToHistory(query, User, userId);
      var chunks := if contextChunks.Some? then contextChunks.value else MockContext;
      MockContextAnswers(query);
      GenerateResponseSpec(query, chunks);
      var response := GenerateResponse(query, chunks);
      if response.Err? {
        result := Failed(Apology(response.error), query, userId, response.error);
        return;
      }
      AddToHistory(response.value, Assistant, userId);
      result := Answered(response.value, query, userId, |chunks|);
    }
  }
}
