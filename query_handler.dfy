/** The service's query handler: it keeps the conversation history, picks
    the relevant search results for a question, renders them and the
    caller's history for the tutor prompt, answers with the language model
    or, without one, with a canned response, and streams that canned
    response to a websocket as a sequence of events. The language model is
    a function from prompt to reply; the websocket is a channel whose sends
    may raise. */
module QueryService {
  import opened Common
  import opened Text
  import opened Conversation
  import opened Prompts
  import VectorStore

  type Hit = VectorStore.Hit

  // ---------------------------------------------------------------------
  // _get_relevant_context

  /** Search results at this distance or farther are dropped. */
  const RelevanceCutoff: real := 0.8

  /** The distance assumed for a result that carries none. */
  const MissingDistance: real := 1.0

  /** `chunk.get('distance', 1.0) < 0.8`. */
  predicate IsRelevant(h: Hit) {
    h.distance.GetOr(MissingDistance) < RelevanceCutoff
  }

  function RelevantContext(hits: seq<Hit>): seq<Hit> {
    Filter(hits, IsRelevant)
  }

  /** The context of a question: the relevant part of what the similarity
      search returned; `results` is `None` when the collection raised. */
  function Retrieve(results: Option<VectorStore.QueryResults>): seq<Hit> {
    RelevantContext(VectorStore.SearchSimilar(results))
  }

  /** The relevant context is exactly the results closer than 0.8, a result
      without a distance counting as 1.0 and so dropped, in search order:
      the results at exactly the positions of the close ones. */
  lemma RelevantContextSpec(hits: seq<Hit>)
    ensures |RelevantContext(hits)| <= |hits|
    ensures forall h :: h in RelevantContext(hits) <==> h in hits && h.distance.Some? && h.distance.value < 0.8
    ensures Selects(RelevantContext(hits), hits, IsRelevant)
  {
    FilterSelects(hits, IsRelevant);
  }

  /** Of results at distances 0.2, 0.79, 0.81 and none, the first two are
      kept. */
  lemma RelevantContextExample(text: string, meta: VectorStore.Meta, id: Option<nat>)
    ensures RelevantContext([VectorStore.Hit(text, meta, Some(0.2), id), VectorStore.Hit(text, meta, Some(0.79), id),
                             VectorStore.Hit(text, meta, Some(0.81), id), VectorStore.Hit(text, meta, None, id)])
            == [VectorStore.Hit(text, meta, Some(0.2), id), VectorStore.Hit(text, meta, Some(0.79), id)]
  {
    var a, b := VectorStore.Hit(text, meta, Some(0.2), id), VectorStore.Hit(text, meta, Some(0.79), id);
    var c, d := VectorStore.Hit(text, meta, Some(0.81), id), VectorStore.Hit(text, meta, None, id);
    assert [a, b, c, d][1..] == [b, c, d] && [b, c, d][1..] == [c, d] && [c, d][1..] == [d] && [d][1..] == [];
    assert Filter([d], IsRelevant) == [];
    assert Filter([c, d], IsRelevant) == [];
    assert Filter([b, c, d], IsRelevant) == [b];
  }

  /** A failed search gives no context. */
  lemma RetrieveFailed()
    ensures Retrieve(None) == []
  {
    assert VectorStore.SearchSimilar(None) == [];
  }

  // ---------------------------------------------------------------------
  // _build_context_text

  /** `chunk.get('metadata', {}).get('filename', 'Unknown source')`. */
  function SourceName(h: Hit): string {
    h.meta.filename.GetOr("Unknown source")
  }

  /** The block rendered for the `n`-th chunk, counting from 1. */
  function Block(n: nat, h: Hit): string {
    "Context " + NatToString(n) + " (from " + SourceName(h) + "):\n" + h.text
  }

  function Blocks(hits: seq<Hit>): (bs: seq<string>)
    ensures |bs| == |hits|
    ensures forall i :: 0 <= i < |hits| ==> bs[i] == Block(i + 1, hits[i])
  {
    seq(|hits|, i requires 0 <= i < |hits| => Block(i + 1, hits[i]))
  }

  /** `_build_context_text(context_chunks)`. */
  function BuildContextText(hits: seq<Hit>): string {
    if hits == [] then NoContext else Join("\n\n", Blocks(hits))
  }

  /** The rendered context is a section of the tutor prompt exactly when
      some chunk is relevant: otherwise it is the no-context marker the
      prompt builder skips. */
  lemma ContextTextShown(hits: seq<Hit>)
    ensures ShowsContext(BuildContextText(hits)) <==> hits != []
  {
    if hits != [] {
      var first := Block(1, hits[0]);
      JoinStarts("\n\n", Blocks(hits));
      assert BuildContextText(hits)[0] == first[0] == 'C';
      assert NoContext[0] == 'N';
    }
  }

  /** One relevant chunk renders as its own block, numbered 1. */
  lemma ContextTextSingle(h: Hit)
    ensures BuildContextText([h]) == Block(1, h)
  {
    assert Blocks([h]) == [Block(1, h)];
  }

  /** A further chunk adds a blank line and its block, numbered after the
      others: the blocks are numbered from 1 in order and joined by blank
      lines. */
  lemma ContextTextAppend(hits: seq<Hit>, h: Hit)
    requires hits != []
    ensures BuildContextText(hits + [h]) == BuildContextText(hits) + "\n\n" + Block(|hits| + 1, h)
  {
    assert Blocks(hits + [h]) == Blocks(hits) + [Block(|hits| + 1, h)];
    JoinAppend("\n\n", Blocks(hits), [Block(|hits| + 1, h)]);
  }

  // ---------------------------------------------------------------------
  // _build_conversation_history

  /** How many of the caller's entries are rendered. */
  const RecentLimit: nat := 5

  /** `role.title()` for the two roles. */
  function RoleName(role: Role): string {
    match role
    case User => "User"
    case Assistant => "Assistant"
  }

  function Line(e: Entry): string {
    RoleName(e.role) + ": " + e.message
  }

  function Lines(es: seq<Entry>): (ls: seq<string>)
    ensures |ls| == |es|
    ensures forall i :: 0 <= i < |es| ==> ls[i] == Line(es[i])
  {
    seq(|es|, i requires 0 <= i < |es| => Line(es[i]))
  }

  /** `conversation_history[-5:]`. */
  function Recent(es: seq<Entry>): seq<Entry> {
    es[|es| - Min(RecentLimit, |es|)..]
  }

  /** `_build_conversation_history(conversation_history)`; `None` is the
      missing argument. */
  function BuildConversationHistory(history: Option<seq<Entry>>): string {
    if history.None? || history.value == [] then NoHistory
    else Join("\n", Lines(Recent(history.value)))
  }

  /** The rendered history is a section of the tutor prompt exactly when the
      caller passed some entries: otherwise it is the no-history marker. */
  lemma HistoryTextShown(history: Option<seq<Entry>>)
    ensures ShowsHistory(BuildConversationHistory(history)) <==> history.Some? && history.value != []
  {
    if history.Some? && history.value != [] {
      var recent := Recent(history.value);
      JoinStarts("\n", Lines(recent));
      var first := Line(recent[0]);
      assert BuildConversationHistory(history)[0] == first[0];
      assert first[0] == 'U' || first[0] == 'A';
    }
  }

  /** Only the last `min(5, n)` entries are rendered, one line each: a
      history of at most five entries is rendered whole, and entries before
      the last five make no difference. */
  lemma HistoryTextWindow(older: seq<Entry>, recent: seq<Entry>)
    ensures |Recent(older + recent)| == Min(RecentLimit, |older| + |recent|)
    ensures |older| + |recent| <= RecentLimit ==> Recent(older + recent) == older + recent
    ensures |recent| >= RecentLimit ==>
              BuildConversationHistory(Some(older + recent)) == BuildConversationHistory(Some(recent))
  {
    if |recent| >= RecentLimit {
      assert Recent(older + recent) == Recent(recent);
    }
  }

  // ---------------------------------------------------------------------
  // _generate_mock_response

  /** The sentence about the context when chunks were found. */
  const FoundTail: string := " relevant sections in your course materials that address this topic."

  /** The sentence about the context when none was found. (Written in two
      parts so that the verifier reads off its first characters.) */
  const NothingFound: string :=
    "I don't have specific information" + " about this topic in your uploaded materials."

  /** `context_info` for `found` context chunks. */
  function ContextInfo(found: nat): string {
    if found > 0 then "I found " + NatToString(found) + FoundTail else NothingFound
  }

  /** The four response templates, cut around the query and the context
      sentence, and the four educational additions. */
  const Openings: seq<string> :=
    ["Great question about '", "Excellent question! '", "I'd be happy to help with '", "Interesting question about '"]

  const Bridges: seq<string> := ["'! ", "' is an important topic. ", "'. ", "'! "]

  const Closings: seq<string> :=
    [" Let me explain this concept based on what I know.", " Here's what I can tell you about it.",
     " This is a fundamental concept worth understanding.", " Let me break this down for you."]

  const Additions: seq<string> :=
    ["\n\n" + "This concept is important because it forms the foundation for more advanced topics.",
     "\n\n" + "Understanding this will help you with related concepts in your studies.",
     "\n\n" + "This topic often appears in exams and practical applications.",
     "\n\n" + "Mastering this concept will make future learning much easier."]

  /** `len(query) % len(mock_responses)`, which is also the addition's
      index. */
  function MockIndex(query: string): (k: nat)
    ensures k < 4
  {
    |query| % |Openings|
  }

  /** `_generate_mock_response(query, context_chunks)` when `found` chunks
      were found. */
  function MockResponse(query: string, found: nat): string {
    var k := MockIndex(query);
    Openings[k] + query + Bridges[k] + ContextInfo(found) + Closings[k] + Additions[k]
  }

  /** The context sentence announces the number of chunks exactly when some
      were found. */
  lemma ContextInfoSpec(found: nat)
    ensures StartsWith(ContextInfo(found), "I found ") <==> found > 0
    ensures found > 0 ==> HasAt(ContextInfo(found), 8, NatToString(found))
  {
    var info := ContextInfo(found);
    if found > 0 {
      assert info[..8] == "I found ";
      assert info[8..8 + |NatToString(found)|] == NatToString(found);
    } else {
      assert info[2] == 'd';
    }
  }

  /** Where the pieces of a six-part concatenation sit. */
  lemma Pieces(o: string, q: string, b: string, i: string, c: string, a: string)
    ensures StartsWith(o + q + b + i + c + a, o)
    ensures HasAt(o + q + b + i + c + a, |o|, q)
    ensures HasAt(o + q + b + i + c + a, |o| + |q| + |b|, i)
    ensures (o + q + b + i + c + a)[|o| + |q|..] == b + i + c + a
    ensures EndsWith(o + q + b + i + c + a, a)
  {
    var s := o + q + b + i + c + a;
    assert s[..|o|] == o;
    assert s[|o|..|o| + |q|] == q;
    assert s[|o| + |q| + |b|..|o| + |q| + |b| + |i|] == i;
    assert s[|o| + |q|..] == b + i + c + a;
    assert s[|s| - |a|..] == a;
  }

  /** The canned response opens with the template chosen by the query's
      length modulo 4, quotes the query right after it, carries the context
      sentence after the template's bridge and ends with the addition of the
      same index. */
  lemma MockResponseShape(query: string, found: nat)
    ensures StartsWith(MockResponse(query, found), Openings[|query| % 4])
    ensures HasAt(MockResponse(query, found), |Openings[|query| % 4]|, query)
    ensures HasAt(MockResponse(query, found), |Openings[|query| % 4]| + |query| + |Bridges[|query| % 4]|,
                  ContextInfo(found))
    ensures EndsWith(MockResponse(query, found), Additions[|query| % 4])
  {
    var k := MockIndex(query);
    Pieces(Openings[k], query, Bridges[k], ContextInfo(found), Closings[k], Additions[k]);
  }

  /** Two queries of the same length with the same number of chunks get the
      same template and addition: the responses differ only in the quoted
      query. */
  lemma MockSameLength(q1: string, q2: string, found: nat)
    requires |q1| == |q2|
    ensures MockResponse(q1, found)[..|Openings[|q1| % 4]|] == MockResponse(q2, found)[..|Openings[|q2| % 4]|]
    ensures MockResponse(q1, found)[|Openings[|q1| % 4]| + |q1|..]
            == MockResponse(q2, found)[|Openings[|q2| % 4]| + |q2|..]
  {
    var k := MockIndex(q1);
    assert k == MockIndex(q2) == |q1| % 4;
    var o, b, i, c, a := Openings[k], Bridges[k], ContextInfo(found), Closings[k], Additions[k];
    assert MockResponse(q1, found) == o + q1 + b + i + c + a;
    assert MockResponse(q2, found) == o + q2 + b + i + c + a;
    Pieces(o, q1, b, i, c, a);
    Pieces(o, q2, b, i, c, a);
  }

  // ---------------------------------------------------------------------
  // _generate_llm_response

  /** The language model: absent, or a function from the prompt to the
      reply's content, `None` when the call raises or the content is
      missing. */
  datatype Provider = NoProvider | Provider(reply: string -> Option<string>)

  /** The prompt the language model is sent. */
  function LlmPrompt(query: string, context: seq<Hit>, history: Option<seq<Entry>>): string {
    TutorPrompt(query, BuildContextText(context), BuildConversationHistory(history))
  }

  /** `_generate_llm_response(query, context_chunks, conversation_history)`:
      the stripped reply, or the canned response without a model or when
      the call fails. */
  function GenerateResponse(query: string, context: seq<Hit>, history: Option<seq<Entry>>, provider: Provider): string {
    match provider
    case NoProvider => MockResponse(query, |context|)
    case Provider(reply) =>
      match reply(LlmPrompt(query, context, history))
      case Some(content) => Strip(content)
      case None => MockResponse(query, |context|)
  }

  /** The model is shown the caller's history exactly when the caller passed
      some, the "Relevant course material:" section exactly when some chunk
      was relevant, with the rendered chunks in it, and always ends with the
      question and the instruction. */
  lemma LlmPromptSections(query: string, context: seq<Hit>, history: Option<seq<Entry>>)
    ensures StartsWith(LlmPrompt(query, context, history), HistoryHeader) <==> history.Some? && history.value != []
    ensures HasAt(LlmPrompt(query, context, history), |HistorySection(BuildConversationHistory(history))|, ContextHeader)
            <==> context != []
    ensures context != [] ==>
              HasAt(LlmPrompt(query, context, history),
                    |HistorySection(BuildConversationHistory(history))| + |ContextHeader|, BuildContextText(context))
    ensures EndsWith(LlmPrompt(query, context, history), Closing(query))
  {
    var c := BuildContextText(context);
    var h := BuildConversationHistory(history);
    HistoryTextShown(history);
    ContextTextShown(context);
    HistorySectionIff(query, c, h);
    ContextSectionIff(query, c, h);
    if context != [] {
      ContextSectionHolds(query, c, h);
    }
    ClosingLast(query, c, h);
  }

  // ---------------------------------------------------------------------
  // The mock path of process_query_streaming

  datatype EventKind = ContextEvent | ContextFoundEvent | GeneratingEvent | ChunkEvent | CompleteEvent | ErrorEvent

  /** A websocket message: its `type` and its `message` or `content`; the
      timestamp is not modelled. */
  datatype Event = Event(kind: EventKind, message: string)

  const RetrievingMessage: string := "Retrieving relevant information..."
  const GeneratingMessage: string := "Generating response..."
  const CompleteMessage: string := "Response complete"
  const TroubleMessage: string := "Sorry, I'm having trouble generating a response right now."

  function FoundMessage(found: nat): string {
    "Found " + NatToString(found) + " relevant sections"
  }

  /** How many words each chunk event carries. */
  const WordsPerChunk: nat := 3

  /** One chunk event per three words, each carrying its words joined by
      spaces and a trailing space. */
  function ChunkEvents(words: seq<string>): seq<Event>
    decreases |words|
  {
    if words == [] then []
    else
      var n := Min(WordsPerChunk, |words|);
      [Event(ChunkEvent, Join(" ", words[..n]) + " ")] + ChunkEvents(words[n..])
  }

  /** What a client shows by concatenating the events' messages. */
  function Streamed(events: seq<Event>): string {
    if events == [] then "" else events[0].message + Streamed(events[1..])
  }

  /** `ceil(w / 3)` chunk events, and together they carry every word, in
      order, separated by single spaces, with one trailing space. */
  lemma {:induction false} ChunkEventsSpec(words: seq<string>)
    ensures |ChunkEvents(words)| == (|words| + 2) / 3
    ensures forall i :: 0 <= i < |ChunkEvents(words)| ==> ChunkEvents(words)[i].kind == ChunkEvent
    ensures Streamed(ChunkEvents(words)) == if words == [] then "" else Join(" ", words) + " "
  {
    if words != [] {
      var n := Min(WordsPerChunk, |words|);
      var rest := words[n..];
      ChunkEventsSpec(rest);
      var head := Event(ChunkEvent, Join(" ", words[..n]) + " ");
      assert ([head] + ChunkEvents(rest))[1..] == ChunkEvents(rest);
      if rest != [] {
        assert words == words[..n] + rest;
        JoinAppend(" ", words[..n], rest);
      } else {
        assert words[..n] == words;
      }
    }
  }

  /** The events `_generate_mock_streaming_response` sends for an answer
      whose words are `words` when no send raises: the generating event, the
      chunk events and the complete event. */
  function AnswerPlan(words: seq<string>): seq<Event> {
    [Event(GeneratingEvent, GeneratingMessage)] + ChunkEvents(words) + [Event(CompleteEvent, CompleteMessage)]
  }

  /** The events `process_query_streaming` sends for `found` chunks and an
      answer whose words are `words` when no send raises. */
  function StreamPlan(found: nat, words: seq<string>): seq<Event> {
    ContextEvents(found) + AnswerPlan(words)
  }

  /** The context event and the context_found event for `found` chunks. */
  function ContextEvents(found: nat): seq<Event> {
    [Event(ContextEvent, RetrievingMessage), Event(ContextFoundEvent, FoundMessage(found))]
  }

  /** What reaches the client of the apology the outer handler sends as
      attempt `n`. */
  function Apologised(failing: set<nat>, n: nat, reason: string): seq<Event> {
    if n in failing then [] else [Event(ErrorEvent, Apology(reason))]
  }

  /** What follows when the exception escapes `_generate_streaming_response`
      and the next send is attempt `m`: the outer handler's apology. */
  function GiveUp(failing: set<nat>, reason: string): nat -> seq<Event> {
    (m: nat) => Apologised(failing, m, reason)
  }

  /** What follows when the exception escapes the first run of the canned
      stream `plan` and the next send is attempt `m`: the handler of
      `_generate_streaming_response` runs the canned stream again, and when
      that escapes too the outer handler apologises. */
  function Retried(plan: seq<Event>, failing: set<nat>, reason: string): nat -> seq<Event> {
    (m: nat) => Delivered(plan, failing, m, GiveUp(failing, reason))
  }

  /** What reaches the client once a send inside the canned stream raised:
      its handler sends the trouble message as attempt `n`; when that raises
      too the exception escapes and `escaped` says what follows. */
  function Troubled(failing: set<nat>, n: nat, escaped: nat -> seq<Event>): seq<Event> {
    if n in failing then escaped(n + 1) else [Event(ErrorEvent, TroubleMessage)]
  }

  /** What reaches the client of one run of the canned stream's remaining
      events `rest`, the first of them sent as attempt `n`: each event until
      a send raises, then what the handlers send instead. */
  function Delivered(rest: seq<Event>, failing: set<nat>, n: nat, escaped: nat -> seq<Event>): seq<Event>
    decreases |rest|
  {
    if rest == [] then []
    else if n in failing then Troubled(failing, n + 1, escaped)
    else [rest[0]] + Delivered(rest[1..], failing, n + 1, escaped)
  }

  /** What reaches the client of `process_query_streaming`'s own events
      `pre`, the first sent as attempt `n`, followed by the canned stream's
      events `inner`: each event until a send raises, then the apology. */
  function Outer(pre: seq<Event>, inner: seq<Event>, failing: set<nat>, n: nat, reason: string): seq<Event>
    decreases |pre|
  {
    if pre == [] then Delivered(inner, failing, n, Retried(inner, failing, reason))
    else if n in failing then Apologised(failing, n + 1, reason)
    else [pre[0]] + Outer(pre[1..], inner, failing, n + 1, reason)
  }

  /** What reaches the client of `process_query_streaming` for `found`
      chunks and an answer whose words are `words`, the first send being
      attempt `first` and the attempts in `failing` raising with the text
      `reason`. */
  function StreamDelivered(found: nat, words: seq<string>, failing: set<nat>, first: nat, reason: string): seq<Event> {
    Outer(ContextEvents(found), AnswerPlan(words), failing, first, reason)
  }

  /** No send of the events `rest`, the first sent as attempt `n`, raises. */
  ghost predicate Completes(rest: seq<Event>, failing: set<nat>, n: nat) {
    forall a :: n <= a < n + |rest| ==> a !in failing
  }

  lemma CompletesAppend(xs: seq<Event>, ys: seq<Event>, failing: set<nat>, n: nat)
    ensures Completes(xs + ys, failing, n) <==> Completes(xs, failing, n) && Completes(ys, failing, n + |xs|)
  {
  }

  /** The next event of the canned stream was sent. */
  lemma DeliveredSent(e: Event, rest: seq<Event>, failing: set<nat>, n: nat, escaped: nat -> seq<Event>)
    requires n !in failing
    ensures Delivered([e] + rest, failing, n, escaped) == [e] + Delivered(rest, failing, n + 1, escaped)
  {
    assert ([e] + rest)[1..] == rest;
  }

  /** Sending the next event of the canned stream raised. */
  lemma DeliveredRaised(e: Event, rest: seq<Event>, failing: set<nat>, n: nat, escaped: nat -> seq<Event>)
    requires n in failing
    ensures Delivered([e] + rest, failing, n, escaped) == Troubled(failing, n + 1, escaped)
  {
  }

  /** The next event of `process_query_streaming` itself was sent. */
  lemma OuterSent(e: Event, pre: seq<Event>, inner: seq<Event>, failing: set<nat>, n: nat, reason: string)
    requires n !in failing
    ensures Outer([e] + pre, inner, failing, n, reason) == [e] + Outer(pre, inner, failing, n + 1, reason)
  {
    assert ([e] + pre)[1..] == pre;
  }

  lemma Regroup3<T>(a: seq<T>, b: seq<T>, c: seq<T>)
    ensures a + (b + c) == (a + b) + c
  {
  }

  /** Error events and the complete event come only last. */
  predicate EndsOnce(s: seq<Event>) {
    forall i :: 0 <= i < |s| - 1 ==> s[i].kind != ErrorEvent && s[i].kind != CompleteEvent
  }

  /** Of a run of a stream whose events are not error events and whose only
      complete event is its last, the client receives events of the stream
      and at most one error event or complete event, which comes last; and
      the whole stream when no send raises. */
  lemma {:induction false} DeliveredShape(rest: seq<Event>, failing: set<nat>, n: nat, escaped: nat -> seq<Event>,
                                          allowed: seq<Event>)
    requires forall i :: 0 <= i < |rest| ==> rest[i].kind != ErrorEvent && rest[i] in allowed
    requires forall i :: 0 <= i < |rest| - 1 ==> rest[i].kind != CompleteEvent
    requires forall m :: EndsOnce(escaped(m))
    requires forall m, e :: e in escaped(m) && e.kind != ErrorEvent ==> e in allowed
    ensures EndsOnce(Delivered(rest, failing, n, escaped))
    ensures forall e :: e in Delivered(rest, failing, n, escaped) && e.kind != ErrorEvent ==> e in allowed
    ensures Completes(rest, failing, n) ==> Delivered(rest, failing, n, escaped) == rest
    decreases |rest|
  {
    if rest != [] && n !in failing {
      var tail := rest[1..];
      DeliveredShape(tail, failing, n + 1, escaped, allowed);
      var d := Delivered(tail, failing, n + 1, escaped);
      assert Delivered(rest, failing, n, escaped) == [rest[0]] + d;
      if rest[0].kind == CompleteEvent {
        assert tail == [];
      }
    }
  }

  /** Only the last planned event is the complete event, and none is an
      error event. */
  lemma AnswerPlanKinds(words: seq<string>)
    ensures AnswerPlan(words)[|AnswerPlan(words)| - 1] == Event(CompleteEvent, CompleteMessage)
    ensures forall i :: 0 <= i < |AnswerPlan(words)| ==> AnswerPlan(words)[i].kind != ErrorEvent
    ensures forall i :: 0 <= i < |AnswerPlan(words)| - 1 ==> AnswerPlan(words)[i].kind != CompleteEvent
  {
    var plan := AnswerPlan(words);
    var chunks := ChunkEvents(words);
    ChunkEventsSpec(words);
    forall i | 1 <= i < |plan| - 1
      ensures plan[i].kind == ChunkEvent
    {
      assert plan[i] == chunks[i - 1];
    }
  }

  /** What follows an escape from the first run of the canned stream keeps
      the shape of `DeliveredShape`. */
  lemma RetriedShape(inner: seq<Event>, failing: set<nat>, reason: string)
    requires forall i :: 0 <= i < |inner| ==> inner[i].kind != ErrorEvent
    requires forall i :: 0 <= i < |inner| - 1 ==> inner[i].kind != CompleteEvent
    ensures forall m :: EndsOnce(Retried(inner, failing, reason)(m))
    ensures forall m, e :: e in Retried(inner, failing, reason)(m) && e.kind != ErrorEvent ==> e in inner
  {
    var giveUp := GiveUp(failing, reason);
    forall m: nat
      ensures EndsOnce(Retried(inner, failing, reason)(m))
      ensures forall e :: e in Retried(inner, failing, reason)(m) && e.kind != ErrorEvent ==> e in inner
    {
      assert Retried(inner, failing, reason)(m) == Delivered(inner, failing, m, giveUp);
      DeliveredShape(inner, failing, m, giveUp, inner);
    }
  }

  /** The canned stream, run again once when its exception escapes, keeps
      the shape of `DeliveredShape`. */
  lemma InnerShape(inner: seq<Event>, failing: set<nat>, n: nat, reason: string)
    requires forall i :: 0 <= i < |inner| ==> inner[i].kind != ErrorEvent
    requires forall i :: 0 <= i < |inner| - 1 ==> inner[i].kind != CompleteEvent
    ensures EndsOnce(Outer([], inner, failing, n, reason))
    ensures forall e :: e in Outer([], inner, failing, n, reason) && e.kind != ErrorEvent ==> e in inner
    ensures Completes(inner, failing, n) ==> Outer([], inner, failing, n, reason) == inner
  {
    RetriedShape(inner, failing, reason);
    DeliveredShape(inner, failing, n, Retried(inner, failing, reason), inner);
  }

  /** The outer handler's events followed by the canned stream, run again
      once when its exception escapes, keep the shape of `DeliveredShape`. */
  lemma {:induction false} OuterShape(pre: seq<Event>, inner: seq<Event>, failing: set<nat>, n: nat, reason: string)
    requires forall i :: 0 <= i < |pre| ==> pre[i].kind != ErrorEvent && pre[i].kind != CompleteEvent
    requires forall i :: 0 <= i < |inner| ==> inner[i].kind != ErrorEvent
    requires forall i :: 0 <= i < |inner| - 1 ==> inner[i].kind != CompleteEvent
    ensures EndsOnce(Outer(pre, inner, failing, n, reason))
    ensures forall e :: e in Outer(pre, inner, failing, n, reason) && e.kind != ErrorEvent ==> e in pre + inner
    ensures Completes(pre + inner, failing, n) ==> Outer(pre, inner, failing, n, reason) == pre + inner
    decreases |pre|
  {
    if pre == [] {
      InnerShape(inner, failing, n, reason);
      assert pre + inner == inner;
    } else if n !in failing {
      var tail := pre[1..];
      OuterShape(tail, inner, failing, n + 1, reason);
      assert [pre[0]] + tail == pre;
      OuterSentShape(pre[0], tail, inner, failing, n, reason);
    } else {
      OuterRaised(pre, inner, failing, n, reason);
    }
  }

  /** The shape of `OuterShape` survives sending one more event of
      `process_query_streaming` itself. */
  lemma OuterSentShape(e: Event, tail: seq<Event>, inner: seq<Event>, failing: set<nat>, n: nat, reason: string)
    requires n !in failing && e.kind != ErrorEvent && e.kind != CompleteEvent
    requires EndsOnce(Outer(tail, inner, failing, n + 1, reason))
    requires forall x :: x in Outer(tail, inner, failing, n + 1, reason) && x.kind != ErrorEvent ==> x in tail + inner
    requires Completes(tail + inner, failing, n + 1) ==> Outer(tail, inner, failing, n + 1, reason) == tail + inner
    ensures EndsOnce(Outer([e] + tail, inner, failing, n, reason))
    ensures forall x :: x in Outer([e] + tail, inner, failing, n, reason) && x.kind != ErrorEvent ==> x in [e] + tail + inner
    ensures Completes([e] + tail + inner, failing, n) ==> Outer([e] + tail, inner, failing, n, reason) == [e] + tail + inner
  {
    var rest := Outer(tail, inner, failing, n + 1, reason);
    OuterSent(e, tail, inner, failing, n, reason);
    EndsOnceCons(e, rest);
    assert [e] + tail + inner == [e] + (tail + inner);
    CompletesAppend([e], tail + inner, failing, n);
  }

  /** An event that is neither an error nor the end can go before a stream
      that ends once. */
  lemma EndsOnceCons(e: Event, s: seq<Event>)
    requires e.kind != ErrorEvent && e.kind != CompleteEvent
    requires EndsOnce(s)
    ensures EndsOnce([e] + s)
  {
    forall i | 1 <= i < |[e] + s| - 1
      ensures ([e] + s)[i].kind != ErrorEvent && ([e] + s)[i].kind != CompleteEvent
    {
      assert ([e] + s)[i] == s[i - 1];
    }
  }

  /** Sending the next event of `process_query_streaming` itself raised: the
      client receives at most the apology. */
  lemma OuterRaised(pre: seq<Event>, inner: seq<Event>, failing: set<nat>, n: nat, reason: string)
    requires pre != [] && n in failing
    ensures EndsOnce(Outer(pre, inner, failing, n, reason))
    ensures forall e :: e in Outer(pre, inner, failing, n, reason) ==> e.kind == ErrorEvent
    ensures !Completes(pre + inner, failing, n)
  {
    assert n < n + |pre + inner|;
  }

  /** What the client receives of the stream: events of the plan, and at
      most one error event or complete event, which comes last; the whole
      plan when no send raises. */
  lemma StreamDeliveredShape(found: nat, words: seq<string>, failing: set<nat>, first: nat, reason: string)
    ensures forall i :: 0 <= i < |StreamDelivered(found, words, failing, first, reason)| - 1 ==>
              StreamDelivered(found, words, failing, first, reason)[i].kind != ErrorEvent
              && StreamDelivered(found, words, failing, first, reason)[i].kind != CompleteEvent
    ensures forall e :: e in StreamDelivered(found, words, failing, first, reason) && e.kind != ErrorEvent ==>
              e in StreamPlan(found, words)
    ensures Completes(StreamPlan(found, words), failing, first)
            ==> StreamDelivered(found, words, failing, first, reason) == StreamPlan(found, words)
  {
    AnswerPlanKinds(words);
    OuterShape(ContextEvents(found), AnswerPlan(words), failing, first, reason);
  }

  /** When the first chunk's send raises and so does the trouble message's,
      the canned stream runs again from the generating event: the client
      sees the generating event twice and then, as nothing else raises, the
      whole answer and the complete event. */
  lemma StreamRetried(found: nat, words: seq<string>, first: nat, reason: string)
    requires words != []
    ensures StreamDelivered(found, words, {first + 3, first + 4}, first, reason)
            == ContextEvents(found) + [Event(GeneratingEvent, GeneratingMessage)] + AnswerPlan(words)
  {
    var failing := {first + 3, first + 4};
    var plan := AnswerPlan(words);
    var ctx := ContextEvents(found);
    AnswerRetried(words, failing, first + 2, reason);
    assert ctx == [ctx[0]] + [ctx[1]];
    OuterSent(ctx[0], [ctx[1]], plan, failing, first, reason);
    OuterSent(ctx[1], [], plan, failing, first + 1, reason);
  }

  /** The canned stream whose first chunk's send and trouble message's send
      raise, and nothing after them, delivers the generating event and then
      the whole stream again. */
  lemma AnswerRetried(words: seq<string>, failing: set<nat>, n: nat, reason: string)
    requires words != [] && failing == {n + 1, n + 2}
    ensures Delivered(AnswerPlan(words), failing, n, Retried(AnswerPlan(words), failing, reason))
            == [Event(GeneratingEvent, GeneratingMessage)] + AnswerPlan(words)
  {
    var generating := Event(GeneratingEvent, GeneratingMessage);
    var complete := Event(CompleteEvent, CompleteMessage);
    var plan := AnswerPlan(words);
    var chunks := ChunkEvents(words);
    var again := Retried(plan, failing, reason);
    assert chunks == [chunks[0]] + chunks[1..];
    assert plan == [generating] + ([chunks[0]] + (chunks[1..] + [complete]));
    DeliveredSent(generating, [chunks[0]] + (chunks[1..] + [complete]), failing, n, again);
    DeliveredRaised(chunks[0], chunks[1..] + [complete], failing, n + 1, again);
    assert Troubled(failing, n + 2, again) == Delivered(plan, failing, n + 3, GiveUp(failing, reason));
    DeliveredAll(plan, failing, n + 3, GiveUp(failing, reason));
  }

  /** A run of the canned stream in which no send raises delivers all of it. */
  lemma {:induction false} DeliveredAll(rest: seq<Event>, failing: set<nat>, n: nat, escaped: nat -> seq<Event>)
    requires Completes(rest, failing, n)
    ensures Delivered(rest, failing, n, escaped) == rest
    decreases |rest|
  {
    if rest != [] {
      DeliveredAll(rest[1..], failing, n + 1, escaped);
    }
  }

  /** A text that starts with a non-space character has a first word. */
  lemma WordsNotEmpty(s: string)
    requires s != [] && !IsSpace(s[0])
    ensures Words(s) != []
  {
    assert Words(s) == [s[..WordLength(s)]] + Words(s[WordLength(s)..]);
  }

  /** Every template opens with a non-space character and every addition
      with a line break. */
  lemma TemplateEnds(k: nat)
    requires k < 4
    ensures Openings[k] != [] && !IsSpace(Openings[k][0])
    ensures Additions[k] != [] && Additions[k][0] == '\n'
  {
    if k == 0 {
      assert Openings[0][0] == 'G';
    } else if k == 1 {
      assert Openings[1][0] == 'E';
    } else if k == 2 {
      assert Openings[2][0] == 'I';
    } else {
      assert Openings[3][0] == 'I';
    }
  }

  /** A six-part text opening with a non-space character and whose last
      part starts with a line break has a word and a line break. */
  lemma OpensAndBreaks(o: string, q: string, b: string, i: string, c: string, a: string)
    requires o != [] && !IsSpace(o[0])
    requires a != [] && a[0] == '\n'
    ensures Words(o + q + b + i + c + a) != []
    ensures '\n' in o + q + b + i + c + a
  {
    var s := o + q + b + i + c + a;
    assert s[0] == o[0];
    WordsNotEmpty(s);
    assert s[|s| - |a|] == a[0];
  }

  /** The canned response has words, and a line break before its
      addition. */
  lemma MockResponseText(query: string, found: nat)
    ensures Words(MockResponse(query, found)) != []
    ensures '\n' in MockResponse(query, found)
  {
    var k := MockIndex(query);
    TemplateEnds(k);
    OpensAndBreaks(Openings[k], query, Bridges[k], ContextInfo(found), Closings[k], Additions[k]);
  }

  /** Without failures the client receives the context event, the
      context_found event with the number of chunks, the generating event,
      `ceil(w / 3)` chunk events carrying the answer's `w` words joined by
      single spaces plus a trailing space, and the complete event last. */
  lemma StreamPlanShape(found: nat, words: seq<string>)
    requires words != []
    ensures |StreamPlan(found, words)| == 4 + (|words| + 2) / 3
    ensures StreamPlan(found, words)[..3]
            == [Event(ContextEvent, RetrievingMessage), Event(ContextFoundEvent, FoundMessage(found)),
                Event(GeneratingEvent, GeneratingMessage)]
    ensures forall i :: 3 <= i < |StreamPlan(found, words)| - 1 ==> StreamPlan(found, words)[i].kind == ChunkEvent
    ensures Streamed(StreamPlan(found, words)[3..|StreamPlan(found, words)| - 1]) == Join(" ", words) + " "
    ensures StreamPlan(found, words)[|StreamPlan(found, words)| - 1] == Event(CompleteEvent, CompleteMessage)
  {
    var plan := StreamPlan(found, words);
    ChunkEventsSpec(words);
    assert plan[3..|plan| - 1] == ChunkEvents(words);
  }

  /** The streamed text is not the stored answer when the answer has a line
      break: the words are streamed separated by single spaces. */
  lemma StreamedDiffersFromAnswer(full: string)
    requires '\n' in full
    ensures Streamed(ChunkEvents(Words(full))) != full
  {
    var words := Words(full);
    ChunkEventsSpec(words);
    forall i | 0 <= i < |words|
      ensures '\n' !in words[i]
    {
      assert IsSpace('\n');
    }
    JoinAvoids(" ", words, '\n');
  }

  /** The websocket as the handler uses it. Every send is an attempt,
      numbered from 0; the attempts numbered in `failing` raise with the
      text `reason` and deliver nothing. */
  class Channel {
    var delivered: seq<Event>
    var attempts: nat
    const failing: set<nat>
    const reason: string

    constructor (failing: set<nat>, reason: string)
      ensures delivered == [] && attempts == 0
      ensures this.failing == failing && this.reason == reason
    {
      delivered := [];
      attempts := 0;
      this.failing := failing;
      this.reason := reason;
    }

    /** `manager.send_personal_message(json.dumps(event), websocket)`;
        `ok` is false when it raised. */
    method Send(e: Event) returns (ok: bool)
      modifies this
      ensures attempts == old(attempts) + 1
      ensures ok <==> old(attempts) !in failing
      ensures delivered == if ok then old(delivered) + [e] else old(delivered)
    {
      ok := attempts !in failing;
      if ok {
        delivered := delivered + [e];
      }
      attempts := attempts + 1;
    }
  }

  /** The chunk events from word `i` on start with the chunk of words `i`
      to `i + 3`. */
  lemma ChunkEventsStep(words: seq<string>, i: nat)
    requires i < |words|
    ensures ChunkEvents(words[i..])
            == [Event(ChunkEvent, Join(" ", words[i..Min(i + WordsPerChunk, |words|)]) + " ")]
               + ChunkEvents(words[Min(i + WordsPerChunk, |words|)..])
  {
    var n := Min(i + WordsPerChunk, |words|);
    assert words[i..][..n - i] == words[i..n];
    assert words[i..][n - i..] == words[n..];
  }

  /** Sending the chunk of words `i` to `i + 3` succeeded. */
  lemma ChunkSent(words: seq<string>, i: nat, rest: seq<Event>, failing: set<nat>, m: nat, escaped: nat -> seq<Event>)
    requires i < |words| && m !in failing
    ensures Delivered(ChunkEvents(words[i..]) + rest, failing, m, escaped)
            == [Event(ChunkEvent, Join(" ", words[i..Min(i + WordsPerChunk, |words|)]) + " ")]
               + Delivered(ChunkEvents(words[Min(i + WordsPerChunk, |words|)..]) + rest, failing, m + 1, escaped)
    ensures |ChunkEvents(words[i..])| == 1 + |ChunkEvents(words[Min(i + WordsPerChunk, |words|)..])|
  {
    var n := Min(i + WordsPerChunk, |words|);
    var chunk := Event(ChunkEvent, Join(" ", words[i..n]) + " ");
    ChunkEventsStep(words, i);
    Regroup3([chunk], ChunkEvents(words[n..]), rest);
    DeliveredSent(chunk, ChunkEvents(words[n..]) + rest, failing, m, escaped);
  }

  /** Sending the chunk of words `i` to `i + 3` raised. */
  lemma ChunkRaised(words: seq<string>, i: nat, rest: seq<Event>, failing: set<nat>, m: nat, escaped: nat -> seq<Event>)
    requires i < |words| && m in failing
    ensures Delivered(ChunkEvents(words[i..]) + rest, failing, m, escaped) == Troubled(failing, m + 1, escaped)
    ensures ChunkEvents(words[i..]) != []
  {
    var n := Min(i + WordsPerChunk, |words|);
    var chunk := Event(ChunkEvent, Join(" ", words[i..n]) + " ");
    ChunkEventsStep(words, i);
    Regroup3([chunk], ChunkEvents(words[n..]), rest);
    DeliveredRaised(chunk, ChunkEvents(words[n..]) + rest, failing, m, escaped);
  }

  /** The loop sending three words at a time; `ok` is false when a send
      raised, which ends the loop, and `out` is what reached the client.
      `rest` stands for the events the canned stream sends after the
      chunks and `escaped` for what follows when its exception escapes. */
  method SendChunks(words: seq<string>, channel: Channel, ghost rest: seq<Event>, ghost escaped: nat -> seq<Event>)
    returns (ok: bool, ghost out: seq<Event>)
    modifies channel
    ensures channel.delivered == old(channel.delivered) + out
    ensures Delivered(ChunkEvents(words) + rest, channel.failing, old(channel.attempts), escaped)
            == out + if ok then Delivered(rest, channel.failing, channel.attempts, escaped)
                     else Troubled(channel.failing, channel.attempts, escaped)
    ensures ok ==> Completes(ChunkEvents(words), channel.failing, old(channel.attempts))
                   && channel.attempts == old(channel.attempts) + |ChunkEvents(words)|
    ensures !ok ==> !Completes(ChunkEvents(words) + rest, channel.failing, old(channel.attempts))
    ensures Event(CompleteEvent, CompleteMessage) !in out
  {
    ghost var a := channel.attempts;
    ghost var all := ChunkEvents(words) + rest;
    out := [];
    var i := 0;
    assert words[i..] == words;
    while i < |words|
      invariant i <= |words|
      invariant channel.attempts == a + |out|
      invariant channel.delivered == old(channel.delivered) + out
      invariant Completes(out, channel.failing, a)
      invariant Event(CompleteEvent, CompleteMessage) !in out
      invariant |out| + |ChunkEvents(words[i..])| == |ChunkEvents(words)|
      invariant Delivered(all, channel.failing, a, escaped)
                == out + Delivered(ChunkEvents(words[i..]) + rest, channel.failing, channel.attempts, escaped)
      decreases |words| - i
    {
      var n := Min(i + WordsPerChunk, |words|);
      var chunk := Event(ChunkEvent, Join(" ", words[i..n]) + " ");
      ghost var m := channel.attempts;
      ok := channel.Send(chunk);
      if !ok {
        ChunkRaised(words, i, rest, channel.failing, m, escaped);
        assert m < a + |all|;
        return;
      }
      ChunkSent(words, i, rest, channel.failing, m, escaped);
      Regroup3(out, [chunk], Delivered(ChunkEvents(words[n..]) + rest, channel.failing, channel.attempts, escaped));
      out := out + [chunk];
      i := n;
    }
    assert ChunkEvents(words[i..]) + rest == rest;
    ok := true;
  }

  /** The `try` block of `_generate_mock_streaming_response` for the
      answer's `words`: the generating event, the chunks and the complete
      event; `sent` is false when one of them raised, and `out` is what
      reached the client, which holds the complete event exactly when
      every event was sent. */
  method TryAnswer(words: seq<string>, channel: Channel, ghost escaped: nat -> seq<Event>)
    returns (sent: bool, ghost out: seq<Event>)
    modifies channel
    ensures channel.delivered == old(channel.delivered) + out
    ensures Delivered(AnswerPlan(words), channel.failing, old(channel.attempts), escaped)
            == out + if sent then [] else Troubled(channel.failing, channel.attempts, escaped)
    ensures sent <==> Completes(AnswerPlan(words), channel.failing, old(channel.attempts))
    ensures sent <==> Event(CompleteEvent, CompleteMessage) in out
  {
    ghost var a := channel.attempts;
    var generating := Event(GeneratingEvent, GeneratingMessage);
    ghost var body := ChunkEvents(words) + [Event(CompleteEvent, CompleteMessage)];
    assert AnswerPlan(words) == [generating] + body;
    CompletesAppend([generating], body, channel.failing, a);
    out := [];
    sent := channel.Send(generating);
    if !sent {
      DeliveredRaised(generating, body, channel.failing, a, escaped);
      return;
    }
    DeliveredSent(generating, body, channel.failing, a, escaped);
    ghost var more;
    sent, more := SendBody(words, channel, escaped);
    Regroup3(old(channel.delivered), [generating], more);
    Regroup3([generating], more, if sent then [] else Troubled(channel.failing, channel.attempts, escaped));
    out := [generating] + more;
  }

  /** The chunks and the complete event of the canned stream; `sent` is
      false when one of them raised, and `out` is what reached the client,
      which holds the complete event exactly when every event was sent. */
  method SendBody(words: seq<string>, channel: Channel, ghost escaped: nat -> seq<Event>)
    returns (sent: bool, ghost out: seq<Event>)
    modifies channel
    ensures channel.delivered == old(channel.delivered) + out
    ensures Delivered(ChunkEvents(words) + [Event(CompleteEvent, CompleteMessage)], channel.failing,
                      old(channel.attempts), escaped)
            == out + if sent then [] else Troubled(channel.failing, channel.attempts, escaped)
    ensures sent <==> Completes(ChunkEvents(words) + [Event(CompleteEvent, CompleteMessage)], channel.failing,
                                old(channel.attempts))
    ensures sent <==> Event(CompleteEvent, CompleteMessage) in out
  {
    ghost var a := channel.attempts;
    var complete := Event(CompleteEvent, CompleteMessage);
    ghost var chunks := ChunkEvents(words);
    sent, out := SendChunks(words, channel, [complete], escaped);
    if !sent {
      return;
    }
    CompletesAppend(chunks, [complete], channel.failing, a);
    ghost var b := channel.attempts;
    sent := channel.Send(complete);
    if !sent {
      DeliveredRaised(complete, [], channel.failing, b, escaped);
      return;
    }
    DeliveredSent(complete, [], channel.failing, b, escaped);
    Regroup3(old(channel.delivered), out, [complete]);
    out := out + [complete];
  }

  /** `_generate_mock_streaming_response` for the answer's `words`: the
      `try` block and, when it raised, the trouble message; `ok` is false
      when the exception escapes, `completed` is true when every event was
      sent, and `out` is what reached the client. */
  method SendAnswer(words: seq<string>, channel: Channel, ghost escaped: nat -> seq<Event>)
    returns (ok: bool, completed: bool, ghost out: seq<Event>)
    modifies channel
    ensures channel.delivered == old(channel.delivered) + out
    ensures Delivered(AnswerPlan(words), channel.failing, old(channel.attempts), escaped)
            == out + if ok then [] else escaped(channel.attempts)
    ensures completed <==> Completes(AnswerPlan(words), channel.failing, old(channel.attempts))
    ensures completed <==> Event(CompleteEvent, CompleteMessage) in out
    ensures completed ==> ok
  {
    completed, out := TryAnswer(words, channel, escaped);
    if completed {
      return true, true, out;
    }
    var trouble := Event(ErrorEvent, TroubleMessage);
    ok := channel.Send(trouble);
    if ok {
      out := out + [trouble];
    }
  }

  // ---------------------------------------------------------------------
  // The handler

  class QueryHandler {
    /** `conversation_history`, oldest entry first. */
    var history: seq<Entry>
    /** The language model, fixed when the handler is created. */
    const provider: Provider

    ghost predicate Valid()
      reads this
    {
      |history| <= HistoryLimit
    }

    constructor (provider: Provider)
      ensures Valid() && history == [] && this.provider == provider
    {
      history := [];
      this.provider := provider;
    }

    /** `_add_to_history(message, role, user_id)`. */
    method AddToHistory(message: string, role: Role, userId: Option<string>)
      requires Valid()
      modifies this
      ensures Valid()
      ensures history == Appended(old(history), Entry(message, role, userId))
    {
      history := history + [Entry(message, role, userId)];
      if |history| > HistoryLimit {
        history := history[|history| - HistoryLimit..];
      }
    }

    /** `get_conversation_history(user_id)`: a user's entries in order, or
        every entry when no user is given. */
    function ConversationHistory(userId: Option<string>): (r: seq<Entry>)
      reads this
      ensures Truthy(userId) ==> forall e :: e in r <==> e in history && e.userId == userId
      ensures Truthy(userId) ==> Selects(r, history, OwnedBy(userId))
      ensures !Truthy(userId) ==> r == history
    {
      HistoryOfSpec(history, userId);
      HistoryOf(history, userId)
    }

    /** `clear_history(user_id)`. */
    method ClearHistory(userId: Option<string>)
      requires Valid()
      modifies this
      ensures Valid()
      ensures history == Cleared(old(history), userId)
    {
      if Truthy(userId) {
        history := Filter(history, NotOwnedBy(userId));
      } else {
        history := [];
      }
    }

    /** `process_query(query, user_id, conversation_history)`; `results` is
        the collection's raw answer to the similarity query, `None` when it
        raised. Every step it calls handles its own errors, so the answer
        always succeeds. */
    method ProcessQuery(query: string, userId: Option<string>, callerHistory: Option<seq<Entry>>,
                        results: Option<VectorStore.QueryResults>) returns (result: QueryResult)
      requires Valid()
      modifies this
      ensures Valid()
      ensures result == Answered(GenerateResponse(query, Retrieve(results), callerHistory, provider), query, userId,
                                 |Retrieve(results)|)
      ensures history == Appended(Appended(old(history), Entry(query, User, userId)),
                                  Entry(result.response, Assistant, userId))
    {
      AddToHistory(query, User, userId);
      var context := Retrieve(results);
      var response := GenerateResponse(query, context, callerHistory, provider);
      AddToHistory(response, Assistant, userId);
      result := Answered(response, query, userId, |context|);
    }

    /** `_generate_streaming_response` without a language model, once the
        answer `full` is composed and split into `words`: the canned stream
        and, when its exception escapes, the canned stream once more; `ok`
        is false when the exception escapes that too and `out` is what
        reached the client. The answer is recorded, without a user, exactly
        when the client received the complete event. */
    method StreamAnswer(full: string, words: seq<string>, channel: Channel)
      returns (ok: bool, ghost out: seq<Event>)
      requires Valid()
      modifies this, channel
      ensures Valid()
      ensures channel.delivered == old(channel.delivered) + out
      ensures Delivered(AnswerPlan(words), channel.failing, old(channel.attempts),
                        Retried(AnswerPlan(words), channel.failing, channel.reason))
              == out + if ok then [] else Apologised(channel.failing, channel.attempts, channel.reason)
      ensures history
              == if Event(CompleteEvent, CompleteMessage) in out
                 then Appended(old(history), Entry(full, Assistant, None))
                 else old(history)
    {
      ghost var plan := AnswerPlan(words);
      ghost var giveUp := GiveUp(channel.failing, channel.reason);
      var completed;
      ok, completed, out := SendAnswer(words, channel, Retried(plan, channel.failing, channel.reason));
      if completed {
        AddToHistory(full, Assistant, None);
      } else if !ok {
        ghost var first := out;
        ghost var again;
        ok, completed, again := SendAnswer(words, channel, giveUp);
        Regroup3(first, again, if ok then [] else giveUp(channel.attempts));
        Regroup3(old(channel.delivered), first, again);
        out := first + again;
        if completed {
          AddToHistory(full, Assistant, None);
        }
      }
    }

    /** `process_query_streaming(query, user_id, websocket, manager)` without
        a language model: the client receives the planned events up to the
        first send that raises and then what the handlers send instead, and
        the answer is recorded, without a user, exactly when the client
        received the complete event. */
    method ProcessQueryStreaming(query: string, userId: Option<string>, results: Option<VectorStore.QueryResults>,
                                 channel: Channel)
      requires Valid() && provider.NoProvider?
      modifies this, channel
      ensures Valid()
      ensures channel.delivered
              == old(channel.delivered)
                 + StreamDelivered(|Retrieve(results)|, Words(MockResponse(query, |Retrieve(results)|)),
                                   channel.failing, old(channel.attempts), channel.reason)
      ensures history
              == if Event(CompleteEvent, CompleteMessage)
                    in StreamDelivered(|Retrieve(results)|, Words(MockResponse(query, |Retrieve(results)|)),
                                       channel.failing, old(channel.attempts), channel.reason)
                 then Appended(Appended(old(history), Entry(query, User, userId)),
                               Entry(MockResponse(query, |Retrieve(results)|), Assistant, None))
                 else Appended(old(history), Entry(query, User, userId))
    {
      AddToHistory(query, User, userId);
      // Retrieval, the canned answer and its split are pure, so computing
      // them before the first send changes nothing the client or the
      // history sees.
      var context := Retrieve(results);
      var full := MockResponse(query, |context|);
      StreamReply(|context|, full, Words(full), channel);
    }

    /** The sends of `process_query_streaming` once the query is recorded,
        for `found` relevant chunks and the canned answer `full` split into
        `words`. */
    method StreamReply(found: nat, full: string, words: seq<string>, channel: Channel)
      requires Valid()
      modifies this, channel
      ensures Valid()
      ensures channel.delivered
              == old(channel.delivered) + StreamDelivered(found, words, channel.failing, old(channel.attempts), channel.reason)
      ensures history
              == if Event(CompleteEvent, CompleteMessage)
                    in StreamDelivered(found, words, channel.failing, old(channel.attempts), channel.reason)
                 then Appended(old(history), Entry(full, Assistant, None))
                 else old(history)
    {
      ghost var a := channel.attempts;
      var retrieving := Event(ContextEvent, RetrievingMessage);
      var contextFound := Event(ContextFoundEvent, FoundMessage(found));
      var complete := Event(CompleteEvent, CompleteMessage);
      var plan := AnswerPlan(words);
      ghost var again := Retried(plan, channel.failing, channel.reason);
      assert ContextEvents(found) == [retrieving] + [contextFound];
      var sent := channel.Send(retrieving);
      if !sent {
        sent := channel.Send(Event(ErrorEvent, Apology(channel.reason)));
        return;
      }
      OuterSent(retrieving, [contextFound], plan, channel.failing, a, channel.reason);
      sent := channel.Send(contextFound);
      if !sent {
        sent := channel.Send(Event(ErrorEvent, Apology(channel.reason)));
        return;
      }
      OuterSent(contextFound, [], plan, channel.failing, a + 1, channel.reason);
      ghost var shown := [retrieving, contextFound];
      Regroup3([retrieving], [contextFound], Delivered(plan, channel.failing, a + 2, again));
      Regroup3(old(channel.delivered), [retrieving], [contextFound]);
      ghost var out;
      sent, out := StreamAnswer(full, words, channel);
      ghost var tail := if sent then [] else Apologised(channel.failing, channel.attempts, channel.reason);
      Regroup3(shown, out, tail);
      Regroup3(old(channel.delivered), shown, out);
      if !sent {
        sent := channel.Send(Event(ErrorEvent, Apology(channel.reason)));
      }
      Regroup3(old(channel.delivered), shown + out, tail);
      assert complete in shown + out + tail <==> complete in out;
    }
  }
}
