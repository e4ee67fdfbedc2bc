/**
 * The records the pipeline passes around, the exception kinds it raises, and the
 * in-memory stand-ins for the tables it writes (documents, chunks, conversations).
 */
module Entities {
  import opened Wrappers

  /** Entity keys; the store issues them (in place of `Guid` generation). */
  type Guid = nat

  /** An embedding vector (`Pgvector.Vector`); floats are modelled as reals. */
  type Vector = seq<real>

  /** The exceptions the core raises, by .NET type, with their messages. */
  datatype Error =
    | HttpRequest(message: string)
    | InvalidOperation(message: string)
    | NotSupported(message: string)
    | ArgumentOutOfRange

  /** A stored passage (`DocumentChunk`); `embedding` is null until embedded. */
  datatype DocumentChunk = DocumentChunk(documentId: Guid, chunkText: string, chunkIndex: nat, embedding: Option<Vector>)

  /** A retrieved passage (`RelevantChunk`). */
  datatype RelevantChunk = RelevantChunk(documentId: Guid, text: string, similarity: real)

  /** A conversation turn (`Message`); `sources` stands for the serialized retrieved chunks of an answer. */
  datatype Message = Message(role: string, content: string, sources: Option<seq<RelevantChunk>>)

  /** An uploaded document and the chunks attached to it while it is being processed. */
  class Document {
    const id: Guid
    const filename: string
    const fileType: string
    var processed: bool
    var chunks: seq<DocumentChunk>

    constructor (id: Guid, filename: string, fileType: string, processed: bool)
      ensures this.id == id && this.filename == filename && this.fileType == fileType
      ensures this.processed == processed && chunks == []
    {
      this.id := id;
      this.filename := filename;
      this.fileType := fileType;
      this.processed := processed;
      chunks := [];
    }

    /** `document.Chunks.Add(chunk)`. */
    method AddChunk(chunk: DocumentChunk)
      modifies this
      ensures chunks == old(chunks) + [chunk]
      ensures processed == old(processed)
    {
      chunks := chunks + [chunk];
    }
  }

  /** A conversation owns its messages, kept in creation order. */
  class Conversation {
    const id: Guid
    const title: string
    var messages: seq<Message>

    constructor (id: Guid, title: string)
      ensures this.id == id && this.title == title && messages == []
    {
      this.id := id;
      this.title := title;
      messages := [];
    }

    /** `conversation.Messages.Add(message)`. */
    method AddMessage(message: Message)
      modifies this
      ensures messages == old(messages) + [message]
    {
      messages := messages + [message];
    }
  }

  /** The tables of the store, as in-memory sequences in insertion order. */
  class AppDbContext {
    var documents: seq<Document>
    var documentChunks: seq<DocumentChunk>
    var conversations: seq<Conversation>
    var nextId: Guid

    /** Every stored document and conversation has a key below the counter, so the keys the counter issues are new. */
    ghost predicate Valid()
      reads this
    {
      && (forall d :: d in documents ==> d.id < nextId)
      && (forall c :: c in conversations ==> c.id < nextId)
    }

    constructor ()
      ensures documents == [] && documentChunks == [] && conversations == [] && nextId == 0
      ensures Valid()
    {
      documents, documentChunks, conversations := [], [], [];
      nextId := 0;
    }

    /** Issues the counter as a key, which no stored document or conversation has, and advances it by one. */
    method NewId() returns (id: Guid)
      requires Valid()
      modifies this`nextId
      ensures id == old(nextId) && nextId == id + 1 && Valid()
      ensures forall d :: d in documents ==> d.id != id
      ensures forall c :: c in conversations ==> c.id != id
    {
      id := nextId;
      nextId := nextId + 1;
    }

    /** `Documents.Add(document)` committed: the document and its chunks become rows. */
    method AddDocument(document: Document)
      requires Valid() && document.id < nextId
      modifies this`documents, this`documentChunks
      ensures Valid()
      ensures documents == old(documents) + [document]
      ensures documentChunks == old(documentChunks) + document.chunks
    {
      documents := documents + [document];
      documentChunks := documentChunks + document.chunks;
    }

    /** `Conversations.Add(conversation)` committed. */
    method AddConversation(conversation: Conversation)
      requires Valid() && conversation.id < nextId
      modifies this`conversations
      ensures Valid()
      ensures conversations == old(conversations) + [conversation]
    {
      conversations := conversations + [conversation];
    }
  }
}
