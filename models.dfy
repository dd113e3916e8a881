/** The response records the HTTP layer returns (app/models.py). */
module Models {

  /** One cited passage of a chat answer. */
  datatype SourceNode = SourceNode(
    fileName: string,
    pageLabel: string,
    textSnippet: string,
    score: real)

  /** The answer text together with the passages it cites. */
  datatype ChatResponse = ChatResponse(response: string, sources: seq<SourceNode>)

  /** The acknowledgement of an upload. */
  datatype UploadResponse = UploadResponse(status: string, filesProcessed: int, message: string)
}
