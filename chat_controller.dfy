/**
 * The question endpoint (`ChatController.Ask`): validates the question, finds or opens the
 * conversation, retrieves passages, generates the answer with the last ten turns as history,
 * and records the exchange as a user turn followed by an assistant turn.
 */
module Chat {
  import opened Wrappers
  import opened Sequences
  import opened Text
  import opened Entities
  import VoyageEmbedding
  import VectorSearch
  import ClaudeApi

  /** How many earlier messages are forwarded as history. */
  const HistoryLimit := 10
  /** Titles keep this many characters of the question. */
  const TitleLimit := 50
  /** Source snippets keep this many characters of the chunk. */
  const SnippetLimit := 200

  const QuestionRequired := "Question is required"
  const ConversationNotFound := "Conversation not found"

  /** The request body; a null question is None. */
  datatype AskRequest = AskRequest(question: Option<string>, conversationId: Option<Guid>)

  datatype SourceReference = SourceReference(documentId: Guid, text: string, similarity: real)

  datatype ChatResponse = ChatResponse(answer: string, conversationId: Guid, sources: seq<SourceReference>)

  /** The action results `Ask` returns; exceptions are the `Failure` of the enclosing `Result`. */
  datatype AskOutcome = BadRequest(message: string) | Ok(response: ChatResponse)

  /** The title of a conversation opened by `question`. */
  function Title(question: string): (t: string)
    ensures |t| <= TitleLimit + 3
    ensures |question| <= TitleLimit ==> t == question
    ensures |question| > TitleLimit ==> t == question[..TitleLimit] + "..."
  {
    Truncate(question, TitleLimit)
  }

  /** The response's view of a retrieved chunk. */
  function Source(c: RelevantChunk): SourceReference
  {
    SourceReference(c.documentId, Truncate(c.text, SnippetLimit), c.similarity)
  }

  /** The `Select` projection of the retrieved chunks. */
  function Sources(chunks: seq<RelevantChunk>): (r: seq<SourceReference>)
    ensures |r| == |chunks|
    ensures forall i :: 0 <= i < |chunks| ==>
      && r[i].documentId == chunks[i].documentId
      && r[i].similarity == chunks[i].similarity
      && |r[i].text| <= SnippetLimit + 3
      && (|chunks[i].text| <= SnippetLimit ==> r[i].text == chunks[i].text)
      && (|chunks[i].text| > SnippetLimit ==> r[i].text == chunks[i].text[..SnippetLimit] + "...")
  {
    seq(|chunks|, i requires 0 <= i < |chunks| => Source(chunks[i]))
  }

  /** `FirstOrDefault(c => c.Id == id)`: the first conversation with key `id`, if any. */
  function Find(conversations: seq<Conversation>, id: Guid): (r: Option<Conversation>)
    ensures r.None? <==> forall c :: c in conversations ==> c.id != id
    ensures r.Some? ==> r.value in conversations && r.value.id == id
  {
    if conversations == [] then None
    else if conversations[0].id == id then Some(conversations[0])
    else
      assert forall c :: c in conversations ==> c == conversations[0] || c in conversations[1..];
      Find(conversations[1..], id)
  }

  /** The conversation found is the first one with that key. */
  lemma {:induction false} FindIsFirst(conversations: seq<Conversation>, id: Guid)
    requires Find(conversations, id).Some?
    ensures exists k :: (0 <= k < |conversations| && conversations[k] == Find(conversations, id).value
      && forall j :: 0 <= j < k ==> conversations[j].id != id)
  {
    if conversations[0].id != id {
      FindIsFirst(conversations[1..], id);
      var k :| 0 <= k < |conversations[1..]| && conversations[1..][k] == Find(conversations, id).value
        && forall j :: 0 <= j < k ==> conversations[1..][j].id != id;
      assert conversations[k + 1] == Find(conversations, id).value;
    } else {
      assert conversations[0] == Find(conversations, id).value;
    }
  }

  /** The history forwarded for a conversation: its last ten messages, oldest first. */
  function History(messages: seq<Message>): (h: seq<Message>)
    ensures |h| <= HistoryLimit && |h| == Min(HistoryLimit, |messages|)
    ensures messages == messages[..|messages| - |h|] + h
  {
    TakeLast(messages, HistoryLimit)
  }

  /** The two turns one successful `Ask` records. */
  function Exchange(question: string, answer: string, chunks: seq<RelevantChunk>): seq<Message>
  {
    [Message("user", question, None), Message("assistant", answer, Some(chunks))]
  }

  /** What a successful exchange yields: the answer and the passages it was given. */
  datatype Reply = Reply(answer: string, sources: seq<RelevantChunk>)

  /**
   * The search for `question` followed, if it succeeds, by the generation: the first failure,
   * or the answer with the retrieved passages. `embedCalls` and `claudeCalls` count the calls
   * each client made before.
   */
  function Generate(embedRespond: VoyageEmbedding.Provider, embedCalls: nat, claudeRespond: ClaudeApi.Provider, claudeCalls: nat,
                    question: string, chunks: seq<DocumentChunk>, distance: VectorSearch.Distance,
                    history: Option<seq<Message>>): Result<Reply, Error>
  {
    var search := VectorSearch.Retrieve(embedRespond, embedCalls, question, chunks, distance, VectorSearch.DefaultTopK);
    if search.Failure? then Failure(search.error)
    else
      var answer := ClaudeApi.Answer(claudeRespond(claudeCalls, ClaudeApi.Request(question, search.value, history)));
      if answer.Failure? then Failure(answer.error) else Success(Reply(answer.value, search.value))
  }

  /** The requests posted to the generator: one, unless the search failed. */
  function GeneratorRequests(embedRespond: VoyageEmbedding.Provider, embedCalls: nat, question: string,
                             chunks: seq<DocumentChunk>, distance: VectorSearch.Distance,
                             history: Option<seq<Message>>): seq<ClaudeApi.ClaudeRequest>
  {
    var search := VectorSearch.Retrieve(embedRespond, embedCalls, question, chunks, distance, VectorSearch.DefaultTopK);
    if search.Failure? then [] else [ClaudeApi.Request(question, search.value, history)]
  }

  /**
   * An exchange fails with the embedding run's error when embedding the question fails,
   * and otherwise only with the generator's HTTP error; a successful one cites at most
   * `DefaultTopK` passages, those the search returned.
   */
  lemma GenerateOutcome(embedRespond: VoyageEmbedding.Provider, embedCalls: nat, claudeRespond: ClaudeApi.Provider, claudeCalls: nat,
                        question: string, chunks: seq<DocumentChunk>, distance: VectorSearch.Distance,
                        history: Option<seq<Message>>)
    ensures var e := VoyageEmbedding.Embed(embedRespond, embedCalls, [question]);
      var search := VectorSearch.Retrieve(embedRespond, embedCalls, question, chunks, distance, VectorSearch.DefaultTopK);
      var g := Generate(embedRespond, embedCalls, claudeRespond, claudeCalls, question, chunks, distance, history);
      && (e.result.Failure? ==> g == Failure(e.result.error))
      && (e.result.Success? && g.Failure? ==> g.error.HttpRequest?)
      && (g.Success? ==> search.Success? && g.value.sources == search.value && |g.value.sources| <= VectorSearch.DefaultTopK)
  {
    VectorSearch.RetrieveFailsOnlyByEmbedding(embedRespond, embedCalls, question, chunks, distance, VectorSearch.DefaultTopK);
  }

  class ChatController {
    const context: AppDbContext
    const vectorSearch: VectorSearch.VectorSearchService
    const claude: ClaudeApi.ClaudeService

    constructor (context: AppDbContext, vectorSearch: VectorSearch.VectorSearchService, claude: ClaudeApi.ClaudeService)
      ensures this.context == context && this.vectorSearch == vectorSearch && this.claude == claude
    {
      this.context := context;
      this.vectorSearch := vectorSearch;
      this.claude := claude;
    }

    /**
     * `Ask`. A blank question or an unknown conversation changes nothing and calls nothing.
     * Otherwise the question is searched; a search or generation failure propagates and
     * records nothing; on success the exchange is appended to the conversation (a new one is
     * stored with its title), and the response carries the stored answer and the sources.
     */
    method Ask(request: AskRequest) returns (result: Result<AskOutcome, Error>)
      requires vectorSearch.embeddingService.Valid() && context.Valid()
      modifies context`conversations, context`nextId, context.conversations
      ensures context.Valid() && old(context.nextId) <= context.nextId
      modifies vectorSearch.embeddingService.client`requests, vectorSearch.embeddingService.client`delays
      modifies claude.client`requests
      ensures IsNullOrWhiteSpace(request.question) ==>
        && result == Success(BadRequest(QuestionRequired))
        && context.conversations == old(context.conversations)
        && vectorSearch.embeddingService.client.requests == old(vectorSearch.embeddingService.client.requests)
        && vectorSearch.embeddingService.client.delays == old(vectorSearch.embeddingService.client.delays)
        && claude.client.requests == old(claude.client.requests)
        && forall c :: c in old(context.conversations) ==> c.messages == old(c.messages)
      ensures !IsNullOrWhiteSpace(request.question) && request.conversationId.Some?
              && Find(old(context.conversations), request.conversationId.value).None? ==>
        && result == Failure(InvalidOperation(ConversationNotFound))
        && context.conversations == old(context.conversations)
        && vectorSearch.embeddingService.client.requests == old(vectorSearch.embeddingService.client.requests)
        && vectorSearch.embeddingService.client.delays == old(vectorSearch.embeddingService.client.delays)
        && claude.client.requests == old(claude.client.requests)
        && forall c :: c in old(context.conversations) ==> c.messages == old(c.messages)
      ensures !IsNullOrWhiteSpace(request.question)
              && (request.conversationId.Some? ==> Find(old(context.conversations), request.conversationId.value).Some?) ==>
        var question := request.question.value;
        var target := if request.conversationId.Some? then Find(old(context.conversations), request.conversationId.value) else None;
        var history := if target.Some? then Some(History(old(target.value.messages))) else None;
        var embedClient := vectorSearch.embeddingService.client;
        var chunks := old(vectorSearch.context.documentChunks);
        var outcome := Generate(embedClient.respond, |old(embedClient.requests)|, claude.client.respond, |old(claude.client.requests)|,
                                question, chunks, vectorSearch.distance, history);
        && embedClient.requests == old(embedClient.requests) + VoyageEmbedding.Embed(embedClient.respond, |old(embedClient.requests)|, [question]).requests
        && embedClient.delays == old(embedClient.delays) + VoyageEmbedding.Embed(embedClient.respond, |old(embedClient.requests)|, [question]).delays
        && claude.client.requests == old(claude.client.requests)
             + GeneratorRequests(embedClient.respond, |old(embedClient.requests)|, question, chunks, vectorSearch.distance, history)
        && (outcome.Failure? ==>
              && result == Failure(outcome.error)
              && context.conversations == old(context.conversations)
              && forall c :: c in old(context.conversations) ==> c.messages == old(c.messages))
        && (outcome.Success? && target.Some? ==>
              && result == Success(Ok(ChatResponse(outcome.value.answer, target.value.id, Sources(outcome.value.sources))))
              && target.value.messages == old(target.value.messages) + Exchange(question, outcome.value.answer, outcome.value.sources)
              && context.conversations == old(context.conversations)
              && forall c :: c in old(context.conversations) && c != target.value ==> c.messages == old(c.messages))
        && (outcome.Success? && target.None? ==>
              && |context.conversations| == |old(context.conversations)| + 1
              && context.conversations[..|old(context.conversations)|] == old(context.conversations)
              && var created := context.conversations[|old(context.conversations)|];
              && fresh(created)
              && result == Success(Ok(ChatResponse(outcome.value.answer, created.id, Sources(outcome.value.sources))))
              && created.id == old(context.nextId)
              && created.title == Title(question)
              && created.messages == Exchange(question, outcome.value.answer, outcome.value.sources)
              && forall c :: c in old(context.conversations) ==> c.messages == old(c.messages))
    {
      if IsNullOrWhiteSpace(request.question) {
        return Success(BadRequest(QuestionRequired));
      }
      var question := request.question.value;
      ghost var chunks := vectorSearch.context.documentChunks;
      if request.conversationId.Some? {
        var found := Find(context.conversations, request.conversationId.value);
        if found.None? {
          return Failure(InvalidOperation(ConversationNotFound));
        }
        result := Continue(question, found.value);
      } else {
        result := Start(question);
      }
      assert vectorSearch.context.documentChunks == chunks;
    }

    /** `Ask` in an existing conversation: its last ten messages are the history. */
    method Continue(question: string, conversation: Conversation) returns (result: Result<AskOutcome, Error>)
      requires vectorSearch.embeddingService.Valid()
      modifies conversation
      modifies vectorSearch.embeddingService.client`requests, vectorSearch.embeddingService.client`delays
      modifies claude.client`requests
      ensures var history := Some(History(old(conversation.messages)));
        var embedClient := vectorSearch.embeddingService.client;
        var chunks := vectorSearch.context.documentChunks;
        var outcome := Generate(embedClient.respond, |old(embedClient.requests)|, claude.client.respond, |old(claude.client.requests)|,
                                question, chunks, vectorSearch.distance, history);
        && embedClient.requests == old(embedClient.requests) + VoyageEmbedding.Embed(embedClient.respond, |old(embedClient.requests)|, [question]).requests
        && embedClient.delays == old(embedClient.delays) + VoyageEmbedding.Embed(embedClient.respond, |old(embedClient.requests)|, [question]).delays
        && claude.client.requests == old(claude.client.requests)
             + GeneratorRequests(embedClient.respond, |old(embedClient.requests)|, question, chunks, vectorSearch.distance, history)
        && (outcome.Failure? ==> result == Failure(outcome.error) && conversation.messages == old(conversation.messages))
        && (outcome.Success? ==>
              && result == Success(Ok(ChatResponse(outcome.value.answer, conversation.id, Sources(outcome.value.sources))))
              && conversation.messages == old(conversation.messages) + Exchange(question, outcome.value.answer, outcome.value.sources))
    {
      var history := Some(History(conversation.messages));
      var reply := Respond(question, conversation, history);
      if reply.Failure? {
        return Failure(reply.error);
      }
      result := Success(Ok(ChatResponse(reply.value.answer, conversation.id, Sources(reply.value.sources))));
    }

    /** `Ask` without a conversation: a new one, titled after the question, stored once the exchange succeeded. */
    method Start(question: string) returns (result: Result<AskOutcome, Error>)
      requires vectorSearch.embeddingService.Valid() && context.Valid()
      modifies context`conversations, context`nextId
      ensures context.Valid() && old(context.nextId) <= context.nextId
      modifies vectorSearch.embeddingService.client`requests, vectorSearch.embeddingService.client`delays
      modifies claude.client`requests
      ensures var embedClient := vectorSearch.embeddingService.client;
        var chunks := old(vectorSearch.context.documentChunks);
        var outcome := Generate(embedClient.respond, |old(embedClient.requests)|, claude.client.respond, |old(claude.client.requests)|,
                                question, chunks, vectorSearch.distance, None);
        && embedClient.requests == old(embedClient.requests) + VoyageEmbedding.Embed(embedClient.respond, |old(embedClient.requests)|, [question]).requests
        && embedClient.delays == old(embedClient.delays) + VoyageEmbedding.Embed(embedClient.respond, |old(embedClient.requests)|, [question]).delays
        && claude.client.requests == old(claude.client.requests)
             + GeneratorRequests(embedClient.respond, |old(embedClient.requests)|, question, chunks, vectorSearch.distance, None)
        && (outcome.Failure? ==> result == Failure(outcome.error) && context.conversations == old(context.conversations))
        && (outcome.Success? ==>
              && |context.conversations| == |old(context.conversations)| + 1
              && context.conversations[..|old(context.conversations)|] == old(context.conversations)
              && var created := context.conversations[|old(context.conversations)|];
              && fresh(created)
              && result == Success(Ok(ChatResponse(outcome.value.answer, created.id, Sources(outcome.value.sources))))
              && created.id == old(context.nextId)
              && created.title == Title(question)
              && created.messages == Exchange(question, outcome.value.answer, outcome.value.sources))
    {
      var id := context.NewId();
      var conversation := new Conversation(id, Title(question));
      var reply := Respond(question, conversation, None);
      if reply.Failure? {
        return Failure(reply.error);
      }
      context.AddConversation(conversation);
      result := Success(Ok(ChatResponse(reply.value.answer, conversation.id, Sources(reply.value.sources))));
    }

    /** The part of `Ask` after the conversation is known: search, generation, and the two appended turns. */
    method Respond(question: string, conversation: Conversation, history: Option<seq<Message>>) returns (r: Result<Reply, Error>)
      requires vectorSearch.embeddingService.Valid()
      modifies conversation
      modifies vectorSearch.embeddingService.client`requests, vectorSearch.embeddingService.client`delays
      modifies claude.client`requests
      ensures var embedClient := vectorSearch.embeddingService.client;
        && embedClient.requests == old(embedClient.requests) + VoyageEmbedding.Embed(embedClient.respond, |old(embedClient.requests)|, [question]).requests
        && embedClient.delays == old(embedClient.delays) + VoyageEmbedding.Embed(embedClient.respond, |old(embedClient.requests)|, [question]).delays
        && claude.client.requests == old(claude.client.requests)
             + GeneratorRequests(embedClient.respond, |old(embedClient.requests)|, question, vectorSearch.context.documentChunks, vectorSearch.distance, history)
        && r == Generate(embedClient.respond, |old(embedClient.requests)|, claude.client.respond, |old(claude.client.requests)|,
                         question, vectorSearch.context.documentChunks, vectorSearch.distance, history)
      ensures r.Failure? ==> conversation.messages == old(conversation.messages)
      ensures r.Success? ==> conversation.messages == old(conversation.messages) + Exchange(question, r.value.answer, r.value.sources)
    {
      var relevantChunks := vectorSearch.SearchAsync(question, VectorSearch.DefaultTopK);
      if relevantChunks.Failure? {
        return Failure(relevantChunks.error);
      }
      var answer := claude.GenerateAnswer(question, relevantChunks.value, history);
      if answer.Failure? {
        return Failure(answer.error);
      }
      conversation.AddMessage(Message("user", question, None));
      conversation.AddMessage(Message("assistant", answer.value, Some(relevantChunks.value)));
      r := Success(Reply(answer.value, relevantChunks.value));
    }
  }
}
