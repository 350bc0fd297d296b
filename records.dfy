/**
 * The records the session keeps and the outcomes of the two remote calls.
 * A dictionary key the server may omit is an `Option`; the clock is a plain
 * string (`time.strftime`) or integer (`int(time.time())`) passed in.
 */
module Records {
  import opened Wrappers

  /** One cited excerpt of a query answer; `content` is "" when the server sent none. */
  datatype Source = Source(content: string, metadata: map<string, string>)

  /** The fields of a query reply's JSON body that the client reads. */
  datatype QueryBody = QueryBody(answer: Option<string>, sources: Option<seq<Source>>)

  /**
   * What the POST to `/query` came to: a reply with its status code, or an
   * exception (timeout, connection failure, or a body that is not JSON) with its text.
   */
  datatype QueryOutcome =
    | QueryReply(status: int, body: QueryBody)
    | QueryRaised(message: string)

  /** The fields of an upload reply's JSON body that the client reads. */
  datatype UploadBody = UploadBody(
    documentId: Option<string>,
    id: Option<string>,
    fileId: Option<string>,
    chunksAdded: Option<int>)

  /** What the multipart POST to `/upload` came to; a timeout is told apart from other exceptions. */
  datatype UploadOutcome =
    | UploadReply(status: int, body: UploadBody)
    | UploadTimeout
    | UploadRaised(message: string)

  /**
   * One entry of `chat_history`. Error entries carry neither a searched scope
   * nor the request parameters: those keys are absent from them.
   */
  datatype Conversation = Conversation(
    question: string,
    answer: string,
    sources: seq<Source>,
    timestamp: string,
    error: bool,
    documentSearched: Option<string>,
    queryParams: Option<map<string, string>>)

  /** One entry of `uploaded_documents`; the size is kept in bytes rather than as a float of megabytes. */
  datatype Document = Document(
    name: string,
    originalFilename: string,
    sizeBytes: nat,
    chunks: int,
    chunkSize: int,
    chunkOverlap: int,
    timestamp: string,
    status: string,
    documentId: string,
    uploadResponse: UploadBody)

  /** The `selected_document` record: a document name and the id sent with queries. */
  datatype DocRef = DocRef(name: string, id: string)

  datatype FeedbackKind = Good | Bad

  datatype FeedbackEntry = FeedbackEntry(kind: FeedbackKind, timestamp: string)

  /** The scope recorded for a query that named no document. */
  const AllDocuments: string := "All Documents"

  /** The status shown for every document the registry accepts. */
  const Processed: string := "\U{2705} Processed"

  /** Python truthiness of an optional string: present and non-empty. */
  predicate Truthy(s: Option<string>) {
    s.Some? && s.value != ""
  }
}
