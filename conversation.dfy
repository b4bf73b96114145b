/** The conversation history both query handlers keep: a list of entries,
    capped at the 20 most recent, that can be read or cleared per user. */
module Conversation {
  import opened Common

  /** The two roles the handlers record. */
  datatype Role = User | Assistant

  /** A history entry; the timestamp is not modelled. */
  datatype Entry = Entry(message: string, role: Role, userId: Option<string>)

  /** How many entries the history keeps. */
  const HistoryLimit: nat := 20

  /** A user id as Python tests it: `None` and `""` are false. */
  predicate Truthy(userId: Option<string>) {
    userId.Some? && userId.value != ""
  }

  /** The history after `append(entry)` and, when it grew beyond the
      limit, `history[-20:]`. */
  function Appended(history: seq<Entry>, entry: Entry): seq<Entry> {
    var grown := history + [entry];
    if |grown| > HistoryLimit then grown[|grown| - HistoryLimit..] else grown
  }

  /** Recording a question and then its answer leaves them as the two
      newest entries, in that order, and the history at most 20 long. */
  lemma AppendedTwice(history: seq<Entry>, question: Entry, answer: Entry)
    ensures |Appended(Appended(history, question), answer)| == Min(HistoryLimit, |history| + 2)
    ensures Appended(Appended(history, question), answer)[|Appended(Appended(history, question), answer)| - 2]
            == question
    ensures Appended(Appended(history, question), answer)[|Appended(Appended(history, question), answer)| - 1]
            == answer
  {
    AppendedSpec(history, question);
    AppendedSpec(Appended(history, question), answer);
  }

  /** Appending keeps the newest entry last, the older entries in order, and
      exactly the last `min(20, n + 1)` entries of `history + [entry]`: the
      history never grows beyond the limit and loses nothing below it. */
  lemma AppendedSpec(history: seq<Entry>, entry: Entry)
    ensures |Appended(history, entry)| == Min(HistoryLimit, |history| + 1)
    ensures Appended(history, entry)[|Appended(history, entry)| - 1] == entry
    ensures Appended(history, entry)
            == (history + [entry])[|history| + 1 - |Appended(history, entry)|..]
    ensures |history| < HistoryLimit ==> Appended(history, entry) == history + [entry]
  {
  }

  function OwnedBy(userId: Option<string>): Entry -> bool {
    (e: Entry) => e.userId == userId
  }

  function NotOwnedBy(userId: Option<string>): Entry -> bool {
    (e: Entry) => e.userId != userId
  }

  /** `[e for e in history if e.get('user_id') == user_id]`. */
  function Owned(history: seq<Entry>, userId: Option<string>): seq<Entry> {
    Filter(history, OwnedBy(userId))
  }

  /** `[e for e in history if e.get('user_id') != user_id]`. */
  function Without(history: seq<Entry>, userId: Option<string>): seq<Entry> {
    Filter(history, NotOwnedBy(userId))
  }

  /** What `get_conversation_history(user_id)` returns. */
  function HistoryOf(history: seq<Entry>, userId: Option<string>): seq<Entry> {
    if Truthy(userId) then Owned(history, userId) else history
  }

  /** The history after `clear_history(user_id)`. */
  function Cleared(history: seq<Entry>, userId: Option<string>): seq<Entry> {
    if Truthy(userId) then Without(history, userId) else []
  }

  /** Reading a user's history gives exactly that user's entries, in their
      recorded order: the history at exactly the positions of that user's
      entries. Without a user it gives everything. */
  lemma HistoryOfSpec(history: seq<Entry>, userId: Option<string>)
    ensures Truthy(userId) ==>
              forall e :: e in HistoryOf(history, userId) <==> e in history && e.userId == userId
    ensures Truthy(userId) ==> Selects(HistoryOf(history, userId), history, OwnedBy(userId))
    ensures !Truthy(userId) ==> HistoryOf(history, userId) == history
  {
    if Truthy(userId) {
      FilterSelects(history, OwnedBy(userId));
    }
  }

  /** Clearing a user's history removes every entry of that user and keeps
      the history at exactly the positions of everybody else's entries, so
      their interleaving is kept; together with what was removed it accounts
      for the whole history. Without a user it empties it. */
  lemma ClearedSpec(history: seq<Entry>, userId: Option<string>)
    ensures Truthy(userId) ==>
              forall e :: e in Cleared(history, userId) <==> e in history && e.userId != userId
    ensures Truthy(userId) ==>
              multiset(Cleared(history, userId)) + multiset(HistoryOf(history, userId)) == multiset(history)
    ensures Truthy(userId) ==> Selects(Cleared(history, userId), history, NotOwnedBy(userId))
    ensures forall other :: other != userId ==>
              (Owned(Cleared(history, userId), other) == if Truthy(userId) then Owned(history, other) else [])
    ensures !Truthy(userId) ==> Cleared(history, userId) == []
  {
    if Truthy(userId) {
      FilterPartition(history, OwnedBy(userId), NotOwnedBy(userId));
      FilterSelects(history, NotOwnedBy(userId));
      forall other | other != userId
        ensures Owned(Cleared(history, userId), other) == Owned(history, other)
      {
        FilterFilterImplied(history, NotOwnedBy(userId), OwnedBy(other));
      }
    }
  }

  /** Clearing twice is clearing once, and a cleared user has no history. */
  lemma ClearedIdempotent(history: seq<Entry>, userId: Option<string>)
    ensures Cleared(Cleared(history, userId), userId) == Cleared(history, userId)
    ensures HistoryOf(Cleared(history, userId), userId) == []
  {
    if Truthy(userId) {
      FilterFilterImplied(history, NotOwnedBy(userId), NotOwnedBy(userId));
      FilterExcluded(history, NotOwnedBy(userId), OwnedBy(userId));
    }
  }

  /** What a query answers when processing it raised: the apology followed
      by the exception's text. */
  const ApologyPrefix: string := "I apologize, but I encountered an error processing your query: "

  function Apology(error: string): string {
    ApologyPrefix + error
  }

  /** The dictionary `process_query` returns; the timestamp is not
      modelled. */
  datatype QueryResult =
    | Answered(response: string, query: string, userId: Option<string>, contextChunksUsed: nat)
    | Failed(response: string, query: string, userId: Option<string>, error: string)
}
