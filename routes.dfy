/**
 * The two request handlers of app/routes.py, without their HTTP transport:
 * upload wraps the ingestion count in an acknowledgement, and chat turns the
 * engine's retrieved nodes into cited sources.
 */
module Routes {
  import opened Wrappers
  import opened Models
  import opened RagService

  const SnippetLength := 200
  const Ellipsis := "..."
  const UnknownFileName := "Unknown"
  const MissingPageLabel := "N/A"
  const UploadStatus := "success"
  const UploadMessage := "Documents processed and index rebuilt successfully."

  function Min(a: int, b: int): int
  {
    if a < b then a else b
  }

  /** The first 200 characters of `text` (all of it when shorter), always followed by "...". */
  function Snippet(text: string): (r: string)
    ensures |r| == Min(SnippetLength, |text|) + |Ellipsis| && |r| <= 203
    ensures r[|r| - 3..] == Ellipsis
    ensures r[..|r| - 3] <= text
    ensures |text| <= SnippetLength ==> r == text + Ellipsis
    ensures |text| > SnippetLength ==> |r| == 203
  {
    text[..Min(SnippetLength, |text|)] + Ellipsis
  }

  /** `metadata.get(key, default)` on the node's metadata, or on `{}` when that is None or empty. */
  function MetadataGet(metadata: Option<map<string, string>>, key: string, default: string): (r: string)
    ensures metadata.Some? && key in metadata.value ==> r == metadata.value[key]
    ensures metadata.None? || key !in metadata.value ==> r == default
  {
    var effective := if metadata.Some? && |metadata.value| > 0 then metadata.value else map[];
    if key in effective then effective[key] else default
  }

  /** Python truthiness of an optional score: present and non-zero. */
  predicate Truthy(score: Option<real>)
  {
    score.Some? && score.value != 0.0
  }

  /** The node's score when truthy, otherwise 0.0. */
  function ScoreOrZero(score: Option<real>): (r: real)
    ensures r == 0.0 <==> !Truthy(score)
    ensures Truthy(score) ==> r == score.value
    ensures score == None ==> r == 0.0
    ensures score == Some(0.0) ==> r == 0.0
  {
    if Truthy(score) then score.value else 0.0
  }

  /** The cited source for one retrieved node. */
  function ToSourceNode(node: NodeWithScore): (s: SourceNode)
    ensures node.metadata.Some? && "file_name" in node.metadata.value ==> s.fileName == node.metadata.value["file_name"]
    ensures node.metadata.None? || "file_name" !in node.metadata.value ==> s.fileName == UnknownFileName
    ensures node.metadata.Some? && "page_label" in node.metadata.value ==> s.pageLabel == node.metadata.value["page_label"]
    ensures node.metadata.None? || "page_label" !in node.metadata.value ==> s.pageLabel == MissingPageLabel
    ensures 3 <= |s.textSnippet| <= 203 && s.textSnippet[|s.textSnippet| - 3..] == Ellipsis
    ensures s.textSnippet[..|s.textSnippet| - 3] <= node.text
    ensures s.textSnippet == Snippet(node.text)
    ensures s.score == 0.0 <==> !Truthy(node.score)
    ensures Truthy(node.score) ==> s.score == node.score.value
  {
    SourceNode(
      MetadataGet(node.metadata, "file_name", UnknownFileName),
      MetadataGet(node.metadata, "page_label", MissingPageLabel),
      Snippet(node.text),
      ScoreOrZero(node.score))
  }

  /** The loop that builds `sources`: one entry per retrieved node, in order. */
  method BuildSources(nodes: seq<NodeWithScore>) returns (sources: seq<SourceNode>)
    ensures |sources| == |nodes|
    ensures forall i :: 0 <= i < |nodes| ==> sources[i] == ToSourceNode(nodes[i])
  {
    sources := [];
    for i := 0 to |nodes|
      invariant |sources| == i
      invariant forall k :: 0 <= k < i ==> sources[k] == ToSourceNode(nodes[k])
    {
      sources := sources + [ToSourceNode(nodes[i])];
    }
  }

  /**
   * POST /chat: ask the service, then cite exactly the nodes that same answer
   * came with. Any failure is reported with its message. The service is not changed.
   */
  method Chat(service: RAGService, message: string) returns (r: Result<ChatResponse, string>)
    ensures service.chatEngine.None? ==> r == Failure(NotInitializedMessage)
    ensures service.chatEngine.Some? ==>
      var answer := service.caps.respond(service.chatEngine.value, message);
      && (r.Failure? <==> answer.Failure?)
      && (r.Failure? ==> r.error == answer.error)
      && (r.Success? ==>
            && r.value.response == answer.value.response
            && |r.value.sources| == |answer.value.sourceNodes|
            && forall i :: 0 <= i < |answer.value.sourceNodes| ==>
                 r.value.sources[i] == ToSourceNode(answer.value.sourceNodes[i]))
  {
    var response := service.Chat(message);
    if response.Failure? {
      return Failure(response.error);
    }
    var sources := BuildSources(response.value.sourceNodes);
    r := Success(ChatResponse(response.value.response, sources));
  }

  /** POST /upload: rebuild the knowledge base from the batch and acknowledge how many files it had. */
  method UploadFiles(service: RAGService, files: seq<Upload>) returns (r: Result<UploadResponse, string>)
    modifies service
    ensures service.State() == IngestSpec(service.caps, service.settings, old(service.State()), files).0
    ensures r.Success? <==> IngestSpec(service.caps, service.settings, old(service.State()), files).1.Success?
    ensures r.Success? ==> r.value == UploadResponse(UploadStatus, |files|, UploadMessage)
    ensures r.Failure? ==> r.error == IngestSpec(service.caps, service.settings, old(service.State()), files).1.error
  {
    var count := service.IngestDocuments(files);
    if count.Failure? {
      return Failure(count.error);
    }
    r := Success(UploadResponse(UploadStatus, count.value, UploadMessage));
  }
}
