/**
 * Answer generation (`ClaudeService.GenerateAnswerAsync`): the retrieved passages become a
 * numbered context block, the conversation history is forwarded turn by turn, and one user
 * turn carries the context and the question. The reply's first text block is the answer,
 * with a fixed fallback text when there is none.
 *
 * The messages endpoint is an oracle: the reply to the k-th call (counting from 0 over the
 * client's lifetime) for request `req` is `respond(k, req)`.
 */
module ClaudeApi {
  import opened Wrappers
  import opened Sequences
  import opened Text
  import opened Entities

  const Model := "claude-3-haiku-20240307"
  const MaxTokens := 1024
  const SystemPrompt :=
    "You are a helpful customer support assistant.\n"
    + "Answer questions based ONLY on the provided context documents.\n"
    + "If the answer isn't in the context, say so clearly.\n"
    + "Always cite which document section you're referencing.\n"
    + "Be concise but complete."
  const Fallback := "Unable to generate response"

  /** `StringBuilder.AppendLine`'s terminator (`Environment.NewLine` on Linux). */
  const NewLine := "\n"

  /** One element of the request's `messages` array. */
  datatype ApiMessage = ApiMessage(role: string, content: string)

  /** The serialized request body. */
  datatype ClaudeRequest = ClaudeRequest(model: string, maxTokens: nat, system: string, messages: seq<ApiMessage>)

  /** One element of the reply's `content` array; `text` is null when absent. */
  datatype ContentBlock = ContentBlock(text: Option<string>)

  /**
   * What one POST to the messages endpoint yields: status, raw body, and the deserialized
   * `content` (None when the body or its `content` is null).
   */
  datatype ClaudeReply = ClaudeReply(success: bool, statusCode: string, body: string, content: Option<seq<ContentBlock>>)

  type Provider = (nat, ClaudeRequest) -> ClaudeReply

  // ---------------------------------------------------------------------------
  // Context block
  // ---------------------------------------------------------------------------

  /** The lines `BuildContext` writes for the chunk at position `i`: a numbered header, the text, a blank line. */
  function Entry(i: nat, text: string): string
  {
    "[Document " + NatToString(i + 1) + "]" + NewLine + text + NewLine + NewLine
  }

  function Entries(chunks: seq<RelevantChunk>): (es: seq<string>)
    ensures |es| == |chunks| && forall i :: 0 <= i < |chunks| ==> es[i] == Entry(i, chunks[i].text)
  {
    seq(|chunks|, i requires 0 <= i < |chunks| => Entry(i, chunks[i].text))
  }

  /** The context block: the entries of all chunks, in input order. */
  function Context(chunks: seq<RelevantChunk>): string
  {
    Flatten(Entries(chunks))
  }

  lemma EntriesSnoc(chunks: seq<RelevantChunk>, i: nat)
    requires i < |chunks|
    ensures Entries(chunks[..i + 1]) == Entries(chunks[..i]) + [Entry(i, chunks[i].text)]
  {
  }

  /** The context block is empty exactly when there are no chunks: every entry starts with its header. */
  lemma ContextEmptyIff(chunks: seq<RelevantChunk>)
    ensures Context(chunks) == [] <==> chunks == []
  {
    if chunks != [] {
      var es := Entries(chunks);
      assert Context(chunks) == es[0] + Flatten(es[1..]);
      assert es[0][0] == '[';
    }
  }

  /**
   * Chunk i's entry, with its 1-based number and its text verbatim, follows the entries of
   * the chunks before it; nothing else is written between them.
   */
  lemma ContextLocatesEachChunk(chunks: seq<RelevantChunk>, i: nat)
    requires i < |chunks|
    ensures var off := |Context(chunks[..i])|;
      && Context(chunks[..i]) <= Context(chunks)
      && OccursAt(Context(chunks), Entry(i, chunks[i].text), off)
  {
    var es := Entries(chunks);
    assert es == es[..i + 1] + es[i + 1..];
    FlattenConcat(es[..i + 1], es[i + 1..]);
    EntriesSnoc(chunks, i);
    assert es[..i + 1] == Entries(chunks[..i + 1]);
    FlattenAppend(Entries(chunks[..i]), Entry(i, chunks[i].text));
    var before := Context(chunks[..i]);
    var entry := Entry(i, chunks[i].text);
    assert Context(chunks) == before + entry + Flatten(es[i + 1..]);
    assert Context(chunks)[|before|..|before| + |entry|] == entry;
  }

  // ---------------------------------------------------------------------------
  // Messages
  // ---------------------------------------------------------------------------

  /** The user prompt template, with the context block and the question inserted. */
  const PromptHead := "Context documents:\n"
  const PromptMiddle := "\n\nQuestion: "
  const PromptTail := "\n\nProvide a helpful answer based on the context above."

  function UserPrompt(contextText: string, question: string): string
  {
    PromptHead + contextText + PromptMiddle + question + PromptTail
  }

  /** The prompt quotes the context block and the question verbatim, at fixed places. */
  lemma PromptQuotes(contextText: string, question: string)
    ensures var p := UserPrompt(contextText, question);
      && OccursAt(p, contextText, |PromptHead|)
      && OccursAt(p, question, |PromptHead| + |contextText| + |PromptMiddle|)
      && |p| == |contextText| + |question| + |PromptHead| + |PromptMiddle| + |PromptTail|
  {
    RegroupTail(PromptHead, contextText, PromptMiddle, question, PromptTail);
    OccursBetween(PromptHead, contextText, PromptMiddle + question + PromptTail);
    OccursBetween(PromptHead + contextText + PromptMiddle, question, PromptTail);
  }

  function Turn(m: Message): ApiMessage
  {
    ApiMessage(m.role, m.content)
  }

  /** The history turns, in order. */
  function HistoryTurns(history: seq<Message>): seq<ApiMessage>
  {
    if history == [] then [] else HistoryTurns(history[..|history| - 1]) + [Turn(history[|history| - 1])]
  }

  /** `conversationHistory` with null read as no history. */
  function HistoryOf(history: Option<seq<Message>>): seq<Message>
  {
    if history.Some? then history.value else []
  }

  /** The `messages` array: every history turn, then the user prompt. */
  function Turns(history: Option<seq<Message>>, prompt: string): seq<ApiMessage>
  {
    HistoryTurns(HistoryOf(history)) + [ApiMessage("user", prompt)]
  }

  lemma {:induction false} HistoryTurnsPointwise(history: seq<Message>)
    ensures |HistoryTurns(history)| == |history|
    ensures forall i :: 0 <= i < |history| ==> HistoryTurns(history)[i] == ApiMessage(history[i].role, history[i].content)
  {
    if history != [] {
      HistoryTurnsPointwise(history[..|history| - 1]);
    }
  }

  /**
   * The message list is the history's (role, content) pairs unchanged and in order, then
   * exactly one user turn with the prompt; without history it is that turn alone.
   */
  lemma TurnsShape(history: Option<seq<Message>>, prompt: string)
    ensures var h := HistoryOf(history); var ms := Turns(history, prompt);
      && |ms| == |h| + 1
      && (forall i :: 0 <= i < |h| ==> ms[i].role == h[i].role && ms[i].content == h[i].content)
      && ms[|h|] == ApiMessage("user", prompt)
      && (history.None? || history.value == [] ==> ms == [ApiMessage("user", prompt)])
  {
    HistoryTurnsPointwise(HistoryOf(history));
  }

  /** The request the service posts for `question`, `chunks` and `history`. */
  function Request(question: string, chunks: seq<RelevantChunk>, history: Option<seq<Message>>): ClaudeRequest
  {
    ClaudeRequest(Model, MaxTokens, SystemPrompt, Turns(history, UserPrompt(Context(chunks), question)))
  }

  // ---------------------------------------------------------------------------
  // Reply
  // ---------------------------------------------------------------------------

  function ErrorMessage(reply: ClaudeReply): string
  {
    "Claude API error: " + reply.statusCode + " - " + reply.body
  }

  /**
   * `result?.Content?.FirstOrDefault()?.Text ?? Fallback` after the status check: a failed
   * call is an error, a successful one always yields an answer.
   */
  function Answer(reply: ClaudeReply): (r: Result<string, Error>)
    ensures !reply.success ==> r == Failure(HttpRequest(ErrorMessage(reply)))
    ensures reply.success ==> r.Success?
    ensures reply.success && reply.content.Some? && reply.content.value != [] && reply.content.value[0].text.Some?
      ==> r.value == reply.content.value[0].text.value
    ensures reply.success && (reply.content.None? || reply.content.value == [] || reply.content.value[0].text.None?)
      ==> r.value == Fallback
  {
    if !reply.success then Failure(HttpRequest(ErrorMessage(reply)))
    else if reply.content.Some? && |reply.content.value| > 0 && reply.content.value[0].text.Some? then
      Success(reply.content.value[0].text.value)
    else
      Success(Fallback)
  }

  // ---------------------------------------------------------------------------
  // The client and the service
  // ---------------------------------------------------------------------------

  /** The HTTP client: posts requests to the messages endpoint. */
  class ClaudeClient {
    const respond: Provider
    /** Every request posted, in order. */
    var requests: seq<ClaudeRequest>

    constructor (respond: Provider)
      ensures this.respond == respond && requests == []
    {
      this.respond := respond;
      requests := [];
    }

    method Post(request: ClaudeRequest) returns (reply: ClaudeReply)
      modifies this`requests
      ensures requests == old(requests) + [request]
      ensures reply == respond(|old(requests)|, request)
    {
      reply := respond(|requests|, request);
      requests := requests + [request];
    }
  }

  class ClaudeService {
    const client: ClaudeClient

    constructor (client: ClaudeClient)
      ensures this.client == client
    {
      this.client := client;
    }

    /** `BuildContext`. */
    static method BuildContext(chunks: seq<RelevantChunk>) returns (s: string)
      ensures s == Context(chunks)
    {
      s := "";
      for i := 0 to |chunks|
        invariant s == Context(chunks[..i])
      {
        EntriesSnoc(chunks, i);
        FlattenAppend(Entries(chunks[..i]), Entry(i, chunks[i].text));
        s := s + ("[Document " + NatToString(i + 1) + "]" + NewLine);
        s := s + (chunks[i].text + NewLine);
        s := s + NewLine;
      }
      assert chunks[..|chunks|] == chunks;
    }

    /** The message list of `GenerateAnswerAsync`. */
    static method BuildMessages(history: Option<seq<Message>>, prompt: string) returns (messages: seq<ApiMessage>)
      ensures messages == Turns(history, prompt)
    {
      messages := [];
      if history.Some? && |history.value| > 0 {
        var h := history.value;
        for i := 0 to |h|
          invariant messages == HistoryTurns(h[..i])
        {
          assert h[..i + 1][..i] == h[..i];
          messages := messages + [ApiMessage(h[i].role, h[i].content)];
        }
        assert h[..|h|] == h;
      }
      messages := messages + [ApiMessage("user", prompt)];
    }

    /** `GenerateAnswerAsync`: one POST of the assembled request, then the answer of its reply. */
    method GenerateAnswer(question: string, chunks: seq<RelevantChunk>, history: Option<seq<Message>>)
      returns (r: Result<string, Error>)
      modifies client`requests
      ensures client.requests == old(client.requests) + [Request(question, chunks, history)]
      ensures r == Answer(client.respond(|old(client.requests)|, Request(question, chunks, history)))
    {
      var contextText := BuildContext(chunks);
      var userPrompt := UserPrompt(contextText, question);
      var messages := BuildMessages(history, userPrompt);
      var request := ClaudeRequest(Model, MaxTokens, SystemPrompt, messages);
      var reply := client.Post(request);
      r := Answer(reply);
    }
  }
}
