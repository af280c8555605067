/**
 * Retrieval augmentation: the input check, the retriever and the single
 * templated user turn that replaces the conversation.
 */
module Rag {
  import opened Messages
  import opened Text

  /** Fragments are joined with a blank line between them. */
  const Separator: string := "\n\n"

  /** Template text before the context block. */
  const PromptHead: string :=
    "Você é um assistente prestativo. Responda à pergunta do usuário com base apenas no seguinte contexto:\n\nContexto:\n"

  /** Template text between the context block and the query. */
  const QuestionLabel: string := "\n\nPergunta: "

  /** Retrieval augmentation needs a non-empty list whose last turn is the user's. */
  predicate ValidForRag(msgs: seq<Message>) {
    |msgs| > 0 && msgs[|msgs| - 1].role == UserRole
  }

  /** The query is the last message's content. */
  function Query(msgs: seq<Message>): string
    requires ValidForRag(msgs)
  {
    msgs[|msgs| - 1].content
  }

  /**
   * The context block: the fragments' page contents joined by a blank line.
   * Each fragment sits at its offset, a separator follows every fragment
   * but the last, and the block ends with the last fragment (it is empty
   * when nothing was retrieved).
   */
  function Context(fragments: seq<string>): (ctx: string)
    ensures forall i :: 0 <= i < |fragments| ==> OccursAt(fragments[i], ctx, JoinOffset(Separator, fragments, i))
    ensures forall i :: 0 <= i < |fragments| - 1 ==>
      OccursAt(Separator, ctx, JoinOffset(Separator, fragments, i) + |fragments[i]|)
    ensures |fragments| == 0 ==> ctx == ""
    ensures |fragments| > 0 ==>
      |ctx| == JoinOffset(Separator, fragments, |fragments| - 1) + |fragments[|fragments| - 1]|
  {
    forall i | 0 <= i < |fragments|
      ensures OccursAt(fragments[i], Join(Separator, fragments), JoinOffset(Separator, fragments, i))
    {
      JoinPlacesPart(Separator, fragments, i);
    }
    forall i | 0 <= i < |fragments| - 1
      ensures OccursAt(Separator, Join(Separator, fragments), JoinOffset(Separator, fragments, i) + |fragments[i]|)
    {
      JoinPlacesSeparator(Separator, fragments, i);
    }
    if |fragments| > 0 then
      JoinLength(Separator, fragments);
      Join(Separator, fragments)
    else
      Join(Separator, fragments)
  }

  /**
   * The augmented prompt. The context block starts right after the fixed
   * head and the query is the prompt's verbatim tail, so both can be read
   * back out of it.
   */
  function RagPrompt(context: string, query: string): (p: string)
    ensures OccursAt(PromptHead, p, 0)
    ensures OccursAt(context, p, |PromptHead|)
    ensures |p| == |PromptHead| + |context| + |QuestionLabel| + |query|
    ensures OccursAt(QuestionLabel + query, p, |PromptHead| + |context|)
  {
    var p := PromptHead + context + QuestionLabel + query;
    assert p == PromptHead + context + (QuestionLabel + query);
    p
  }

  /**
   * The conversation sent when retrieval is on: one user turn that quotes
   * every fragment and the query verbatim; all earlier turns are dropped.
   */
  function ComposeRag(query: string, fragments: seq<string>): (msgs: seq<Message>)
    ensures |msgs| == 1 && msgs[0].role == UserRole
    ensures msgs[0].content == RagPrompt(Context(fragments), query)
    ensures Contains(msgs[0].content, query)
    ensures forall i :: 0 <= i < |fragments| ==> Contains(msgs[0].content, fragments[i])
  {
    PromptQuotesQueryAndFragments(query, fragments);
    [Message(UserRole, RagPrompt(Context(fragments), query))]
  }

  /** The augmented prompt quotes the query and every fragment verbatim. */
  lemma PromptQuotesQueryAndFragments(query: string, fragments: seq<string>)
    ensures Contains(RagPrompt(Context(fragments), query), query)
    ensures forall i :: 0 <= i < |fragments| ==> Contains(RagPrompt(Context(fragments), query), fragments[i])
  {
    var ctx := Context(fragments);
    var p := RagPrompt(ctx, query);
    OccursAtNested(query, QuestionLabel + query, p, |QuestionLabel|, |PromptHead| + |ctx|);
    forall i | 0 <= i < |fragments|
      ensures Contains(p, fragments[i])
    {
      OccursAtNested(fragments[i], ctx, p, JoinOffset(Separator, fragments, i), |PromptHead|);
    }
  }

  /**
   * The vector-store retriever. `search` gives the page contents of the
   * documents found for a query; `queries` records every query asked.
   */
  class Retriever {
    const search: string -> seq<string>
    var queries: seq<string>

    constructor (search: string -> seq<string>)
      ensures this.search == search && queries == []
    {
      this.search := search;
      queries := [];
    }

    /** `retriever.get_relevant_documents(query)`, reduced to each document's page content. */
    method GetRelevantDocuments(query: string) returns (fragments: seq<string>)
      modifies this`queries
      ensures fragments == search(query)
      ensures queries == old(queries) + [query]
    {
      fragments := search(query);
      queries := queries + [query];
    }
  }
}
