/** The prompt templates of the tutor: pure string assembly in which a
    section appears or not depending on its argument, keyed for the main
    tutor prompt on the exact marker strings the query handler renders when
    it has no history or no context. */
module Prompts {
  import opened Text

  /** What the query handler renders for an empty history. */
  const NoHistory: string := "No previous conversation."

  /** What the query handler renders for an empty context. (Written in two
      parts so that the verifier reads off its first characters: it does
      not unfold long literals.) */
  const NoContext: string := "No relevant context found" + " in the uploaded documents."

  const HistoryHeader: string := "Previous conversation:\n"
  const ContextHeader: string := "Relevant course material:\n"
  const QuestionHeader: string := "Student's question: "
  const Instruction: string :=
    "\nPlease provide a helpful, educational response that addresses the student's question. "
    + "Use the provided context when relevant, and explain concepts clearly."

  /** `piece` occurs in `s` at index `i`. */
  predicate HasAt(s: string, i: nat, piece: string) {
    i + |piece| <= |s| && s[i..i + |piece|] == piece
  }

  /** `if present: prompt += header + body`. */
  function Optional(present: bool, header: string, body: string): string {
    if present then header + body else ""
  }

  /** A string made of a fixed head, an optional section and a fixed tail
      shows the section's header right after the head exactly when the
      section is present, provided the header and the tail differ at some
      position `k`; the section then holds its body. */
  lemma OptionalSection(head: string, present: bool, header: string, body: string, tail: string, k: nat)
    requires k < |header| && k < |tail| && header[k] != tail[k]
    ensures StartsWith(head + Optional(present, header, body) + tail, head)
    ensures EndsWith(head + Optional(present, header, body) + tail, tail)
    ensures HasAt(head + Optional(present, header, body) + tail, |head|, header) <==> present
    ensures present ==> HasAt(head + Optional(present, header, body) + tail, |head| + |header|, body)
  {
    var s := head + Optional(present, header, body) + tail;
    assert s[..|head|] == head;
    assert s[|s| - |tail|..] == tail;
    if present {
      assert s[|head|..|head| + |header|] == header;
      assert s[|head| + |header|..|head| + |header| + |body|] == body;
    } else {
      assert s == head + tail;
    }
  }

  /** A concatenation starts with its left part, ends with its right part
      and holds the right part right after the left one. */
  lemma Split(a: string, b: string)
    ensures HasAt(a + b, 0, a) && HasAt(a + b, |a|, b)
    ensures StartsWith(a + b, a) && EndsWith(a + b, b)
  {
    assert (a + b)[0..|a|] == a;
    assert (a + b)[|a|..|a| + |b|] == b;
  }

  /** An occurrence inside an occurrence. */
  lemma HasAtWithin(s: string, i: nat, piece: string, j: nat, sub: string)
    requires HasAt(s, i, piece) && HasAt(piece, j, sub)
    ensures HasAt(s, i + j, sub)
  {
    forall k | 0 <= k < |sub|
      ensures s[i + j + k] == sub[k]
    {
      assert s[i..i + |piece|][j + k] == s[i + j + k];
      assert piece[j..j + |sub|][k] == piece[j + k];
    }
    assert s[i + j..i + j + |sub|] == sub;
  }

  /** Regrouping a concatenation of four strings. */
  lemma Regroup(a: string, b: string, c: string, d: string)
    ensures a + b + c + d == a + (b + (c + d))
  {
  }

  // ---------------------------------------------------------------------
  // create_tutor_prompt

  /** Whether the history argument produces a section. */
  predicate ShowsHistory(history: string) {
    history != "" && history != NoHistory
  }

  /** Whether the context argument produces a section. */
  predicate ShowsContext(context: string) {
    context != "" && context != NoContext
  }

  function HistoryPart(history: string): string {
    HistoryHeader + history + "\n"
  }

  function ContextPart(context: string): string {
    ContextHeader + context + "\n"
  }

  function QuestionLine(query: string): string {
    QuestionHeader + query
  }

  /** The `prompt_parts` list. */
  function TutorParts(query: string, context: string, history: string): seq<string> {
    (if ShowsHistory(history) then [HistoryPart(history)] else [])
    + (if ShowsContext(context) then [ContextPart(context)] else [])
    + [QuestionLine(query), Instruction]
  }

  /** `create_tutor_prompt(query, context, conversation_history)`. */
  function TutorPrompt(query: string, context: string, history: string): string {
    Join("\n", TutorParts(query, context, history))
  }

  /** The history section with its separating newline, or nothing. */
  function HistorySection(history: string): string {
    if ShowsHistory(history) then HistoryPart(history) + "\n" else ""
  }

  /** The context section with its separating newline, or nothing. */
  function ContextSection(context: string): string {
    if ShowsContext(context) then ContextPart(context) + "\n" else ""
  }

  /** The question line, a newline and the instruction. */
  function Closing(query: string): string {
    QuestionLine(query) + "\n" + Instruction
  }

  /** Joining up to two optional parts and two fixed ones with newlines. */
  lemma JoinOptional(showA: bool, a: string, showB: bool, b: string, q: string, i: string)
    ensures Join("\n", (if showA then [a] else []) + (if showB then [b] else []) + [q, i])
            == (if showA then a + "\n" else "") + (if showB then b + "\n" else "") + (q + "\n" + i)
  {
    var tail := [q, i];
    assert Join("\n", tail) == q + "\n" + i by {
      assert tail[1..] == [i];
    }
    if showA && showB {
      JoinAppend("\n", [a], [b] + tail);
      JoinAppend("\n", [b], tail);
      assert [a] + [b] + tail == [a] + ([b] + tail);
    } else if showA {
      JoinAppend("\n", [a], tail);
      assert [a] + [] + tail == [a] + tail;
    } else if showB {
      JoinAppend("\n", [b], tail);
      assert [] + [b] + tail == [b] + tail;
    } else {
      assert [] + [] + tail == tail;
    }
  }

  /** The tutor prompt is the history section, the context section and the
      closing question and instruction, in that order and separated by
      newlines. */
  lemma TutorPromptLayout(query: string, context: string, history: string)
    ensures TutorPrompt(query, context, history)
            == HistorySection(history) + ContextSection(context) + Closing(query)
  {
    JoinOptional(ShowsHistory(history), HistoryPart(history), ShowsContext(context), ContextPart(context),
                 QuestionLine(query), Instruction);
  }

  /** The prompt opens with the "Previous conversation:" section exactly when
      the history is neither empty nor the no-history marker. */
  lemma HistorySectionIff(query: string, context: string, history: string)
    ensures StartsWith(TutorPrompt(query, context, history), HistoryHeader) <==> ShowsHistory(history)
  {
    TutorPromptLayout(query, context, history);
    var p := TutorPrompt(query, context, history);
    if ShowsHistory(history) {
      assert p[..|HistoryHeader|] == HistoryHeader;
    } else if ShowsContext(context) {
      assert p[0] == 'R';
    } else {
      assert p[0] == 'S';
    }
  }

  /** The context section as an optional section after the history. */
  lemma ContextSectionOptional(context: string)
    ensures ContextSection(context) == Optional(ShowsContext(context), ContextHeader, context + ("\n" + "\n"))
  {
    Regroup(ContextHeader, context, "\n", "\n");
  }

  /** Right after the history section, the prompt shows the "Relevant course
      material:" section exactly when the context is neither empty nor the
      no-context marker. */
  lemma ContextSectionIff(query: string, context: string, history: string)
    ensures HasAt(TutorPrompt(query, context, history), |HistorySection(history)|, ContextHeader)
            <==> ShowsContext(context)
  {
    TutorPromptLayout(query, context, history);
    ContextSectionOptional(context);
    OptionalSection(HistorySection(history), ShowsContext(context), ContextHeader, context + ("\n" + "\n"),
                    Closing(query), 0);
  }

  /** The context section carries the rendered context right after its
      header. */
  lemma ContextSectionHolds(query: string, context: string, history: string)
    requires ShowsContext(context)
    ensures HasAt(TutorPrompt(query, context, history), |HistorySection(history)| + |ContextHeader|, context)
  {
    TutorPromptLayout(query, context, history);
    ContextSectionOptional(context);
    var body := context + ("\n" + "\n");
    OptionalSection(HistorySection(history), true, ContextHeader, body, Closing(query), 0);
    Split(context, "\n" + "\n");
    HasAtWithin(TutorPrompt(query, context, history), |HistorySection(history)| + |ContextHeader|, body, 0, context);
  }

  /** Whatever the other arguments, the prompt ends with the question line
      followed by the instruction. */
  lemma ClosingLast(query: string, context: string, history: string)
    ensures EndsWith(TutorPrompt(query, context, history), Closing(query))
  {
    TutorPromptLayout(query, context, history);
    Split(HistorySection(history) + ContextSection(context), Closing(query));
  }

  /** The first of three pieces after two others sits right after them. */
  lemma FirstOfTail(a: string, b: string, x: string, y: string, z: string)
    ensures HasAt(a + b + (x + y + z), |a| + |b|, x)
  {
    Split(a + b, x + y + z);
    Split(x + y, z);
    Split(x, y);
    HasAtWithin(x + y + z, 0, x + y, 0, x);
    HasAtWithin(a + b + (x + y + z), |a + b|, x + y + z, 0, x);
  }

  /** The question line comes right after the sections. */
  lemma QuestionAfterSections(query: string, context: string, history: string)
    ensures HasAt(TutorPrompt(query, context, history),
                  |HistorySection(history)| + |ContextSection(context)|, QuestionLine(query))
  {
    TutorPromptLayout(query, context, history);
    FirstOfTail(HistorySection(history), ContextSection(context), QuestionLine(query), "\n", Instruction);
  }

  /** The prompt is exactly the question line, a newline and the instruction
      when, and only when, both the history and the context are empty or
      their markers. */
  lemma BareTutorPrompt(query: string, context: string, history: string)
    ensures TutorPrompt(query, context, history) == Closing(query)
            <==> !ShowsHistory(history) && !ShowsContext(context)
  {
    TutorPromptLayout(query, context, history);
    var p := TutorPrompt(query, context, history);
    if ShowsHistory(history) {
      assert p[0] == 'P' && Closing(query)[0] == 'S';
    } else if ShowsContext(context) {
      assert p[0] == 'R' && Closing(query)[0] == 'S';
    }
  }

  // ---------------------------------------------------------------------
  // create_explanation_prompt

  const ExplanationContextHeader: string := "\n\nUse this context from the course materials:\n"
  const ExplanationFooter: string :=
    "\n\nStructure your explanation to be:" + "\n- Clear and easy to understand"
    + "\n- Include practical examples if possible" + "\n- Break down complex ideas into simpler parts"
    + "\n- Encourage further questions"

  function ExplanationHead(topic: string): string {
    "Please explain the concept of '" + topic + "' in a clear, educational way."
  }

  /** `create_explanation_prompt(topic, context)`. */
  function ExplanationPrompt(topic: string, context: string): string {
    var prompt := ExplanationHead(topic);
    var prompt := prompt + Optional(context != "", ExplanationContextHeader, context);
    prompt + ExplanationFooter
  }

  /** The explanation prompt names the topic first, ends with the structure
      list, and carries the context paragraph exactly when the context is
      non-empty. */
  lemma ExplanationPromptSpec(topic: string, context: string)
    ensures StartsWith(ExplanationPrompt(topic, context), ExplanationHead(topic))
    ensures EndsWith(ExplanationPrompt(topic, context), ExplanationFooter)
    ensures HasAt(ExplanationPrompt(topic, context), |ExplanationHead(topic)|, ExplanationContextHeader)
            <==> context != ""
    ensures context != "" ==>
              HasAt(ExplanationPrompt(topic, context), |ExplanationHead(topic)| + |ExplanationContextHeader|, context)
  {
    OptionalSection(ExplanationHead(topic), context != "", ExplanationContextHeader, context, ExplanationFooter, 2);
  }

  // ---------------------------------------------------------------------
  // create_summary_prompt

  const SummaryHead: string := "Please provide a clear summary of the following content"
  const FocusHeader: string := " focusing on '"
  const SummaryFooter: string :=
    "\n\nMake the summary:" + "\n- Concise but comprehensive" + "\n- Easy to understand"
    + "\n- Highlight key points" + "\n- Include important details"

  /** The optional topic focus. */
  function Focus(topic: string): string {
    Optional(topic != "", FocusHeader, topic + "'")
  }

  /** `create_summary_prompt(content, topic)`. */
  function SummaryPrompt(content: string, topic: string): string {
    var prompt := SummaryHead;
    var prompt := prompt + Focus(topic);
    prompt + (":\n\n" + content + SummaryFooter)
  }

  /** The summary prompt names the topic focus exactly when a topic is
      given, and always embeds the content, untouched, between the header
      line and the fixed list of requirements. */
  lemma SummaryPromptSpec(content: string, topic: string)
    ensures StartsWith(SummaryPrompt(content, topic), SummaryHead)
    ensures HasAt(SummaryPrompt(content, topic), |SummaryHead|, FocusHeader) <==> topic != ""
    ensures topic != "" ==> HasAt(SummaryPrompt(content, topic), |SummaryHead| + |FocusHeader|, topic + "'")
    ensures HasAt(SummaryPrompt(content, topic), |SummaryHead| + |Focus(topic)| + 3, content)
    ensures EndsWith(SummaryPrompt(content, topic), SummaryFooter)
  {
    var tail := ":\n\n" + content + SummaryFooter;
    OptionalSection(SummaryHead, topic != "", FocusHeader, topic + "'", tail, 0);
    var p := SummaryPrompt(content, topic);
    Split(SummaryHead + Focus(topic), tail);
    Split(":\n\n" + content, SummaryFooter);
    Split(":\n\n", content);
    HasAtWithin(tail, 0, ":\n\n" + content, 3, content);
    HasAtWithin(p, |SummaryHead + Focus(topic)|, tail, 3, content);
  }

  // ---------------------------------------------------------------------
  // create_analogy_prompt

  const AnalogyContextHeader: string := "\n\nUse this context:\n"
  const AnalogyFooter: string :=
    "\n\nProvide:" + "\n- 2-3 different analogies" + "\n- Explain how each analogy relates to the concept"
    + "\n- Highlight similarities and differences" + "\n- Make it relatable and memorable"

  function AnalogyHead(concept: string): string {
    "Please explain '" + concept + "' using analogies and comparisons to everyday concepts."
  }

  /** `create_analogy_prompt(concept, context)`. */
  function AnalogyPrompt(concept: string, context: string): string {
    var prompt := AnalogyHead(concept);
    var prompt := prompt + Optional(context != "", AnalogyContextHeader, context);
    prompt + AnalogyFooter
  }

  /** The analogy prompt names the concept first, ends with the list of what
      to provide, and carries the context paragraph exactly when the context
      is non-empty. */
  lemma AnalogyPromptSpec(concept: string, context: string)
    ensures StartsWith(AnalogyPrompt(concept, context), AnalogyHead(concept))
    ensures EndsWith(AnalogyPrompt(concept, context), AnalogyFooter)
    ensures HasAt(AnalogyPrompt(concept, context), |AnalogyHead(concept)|, AnalogyContextHeader) <==> context != ""
    ensures context != "" ==>
              HasAt(AnalogyPrompt(concept, context), |AnalogyHead(concept)| + |AnalogyContextHeader|, context)
  {
    OptionalSection(AnalogyHead(concept), context != "", AnalogyContextHeader, context, AnalogyFooter, 2);
  }

  // ---------------------------------------------------------------------
  // create_study_guide_prompt

  const StudyGuideHeader: string := "Create a comprehensive study guide covering these topics: "
  const StudyGuideContextHeader: string := "\n\nUse this context from course materials:\n"
  const StudyGuideFooter: string :=
    "\n\nStructure the study guide with:" + "\n- Key concepts for each topic" + "\n- Important definitions"
    + "\n- Key relationships between concepts" + "\n- Practice questions"
    + "\n- Common misconceptions to avoid" + "\n- Study tips and strategies"

  /** `create_study_guide_prompt(topics, context)`. */
  function StudyGuidePrompt(topics: seq<string>, context: string): string {
    var topicsStr := Join(", ", topics);
    var prompt := StudyGuideHeader + topicsStr;
    var prompt := prompt + Optional(context != "", StudyGuideContextHeader, context);
    prompt + StudyGuideFooter
  }

  /** The study-guide prompt lists the topics separated by ", " right after
      its header, ends with the structure list, and carries the context
      paragraph exactly when the context is non-empty. */
  lemma StudyGuidePromptSpec(topics: seq<string>, context: string)
    ensures StartsWith(StudyGuidePrompt(topics, context), StudyGuideHeader + Join(", ", topics))
    ensures EndsWith(StudyGuidePrompt(topics, context), StudyGuideFooter)
    ensures HasAt(StudyGuidePrompt(topics, context), |StudyGuideHeader + Join(", ", topics)|, StudyGuideContextHeader)
            <==> context != ""
    ensures context != "" ==>
              HasAt(StudyGuidePrompt(topics, context),
                    |StudyGuideHeader + Join(", ", topics)| + |StudyGuideContextHeader|, context)
  {
    var head := StudyGuideHeader + Join(", ", topics);
    OptionalSection(head, context != "", StudyGuideContextHeader, context, StudyGuideFooter, 2);
  }

  /** The topic list of the study guide: one topic is itself, and each
      further topic adds ", " and that topic. */
  lemma StudyGuideTopics(topics: seq<string>, more: string)
    ensures Join(", ", [more]) == more
    ensures topics != [] ==> Join(", ", topics + [more]) == Join(", ", topics) + ", " + more
  {
    if topics != [] {
      JoinAppend(", ", topics, [more]);
    }
  }
}
