/**
 * The retrieval-augmented generation service (app/rag_service.py).
 *
 * The service keeps one global vector collection ("knowledge_base"), an index
 * over it and a chat engine built from that index. The libraries it drives
 * (the directory reader, the vector index builder and the chat engine) are
 * not modelled: they enter as the function-valued fields of `Capabilities`,
 * about which nothing is assumed.
 */
module RagService {
  import opened Wrappers

  type Bytes = seq<bv8>

  /** Files in the staging directory, by file name. */
  type Staging = map<string, Bytes>

  /** An uploaded file: its client-side name and its content. */
  datatype Upload = Upload(filename: string, content: Bytes)

  /** A document produced by the directory reader. */
  datatype Document = Document(text: string, metadata: map<string, string>)

  /** One record of the persisted vector collection. */
  datatype Chunk = Chunk(text: string, metadata: map<string, string>)

  /** A vector index over the chunks it was built from. */
  datatype Index = Index(chunks: seq<Chunk>)

  datatype GroqLlm = GroqLlm(model: string, apiKey: string)

  datatype HuggingFaceEmbedding = HuggingFaceEmbedding(modelName: string, device: string)

  /** The process-wide model settings installed at start-up. */
  datatype Settings = Settings(llm: GroqLlm, embedModel: HuggingFaceEmbedding)

  /** A chat engine built over an index. */
  datatype ChatEngine = ChatEngine(index: Index, chatMode: string, systemPrompt: string, llm: GroqLlm)

  /** A retrieved node: its text, its metadata (possibly absent) and its score (possibly absent). */
  datatype NodeWithScore = NodeWithScore(text: string, metadata: Option<map<string, string>>, score: Option<real>)

  /** What the chat engine returns for one message. */
  datatype EngineResponse = EngineResponse(response: string, sourceNodes: seq<NodeWithScore>)

  /**
   * The library behaviour the service relies on, left uninterpreted:
   * reading the staging directory into documents (which may fail),
   * splitting and embedding documents into collection records, and
   * answering one message with a chat engine (which may fail, since it
   * calls the embedding model and the language model).
   */
  datatype Capabilities = Capabilities(
    readDirectory: Staging -> Result<seq<Document>, string>,
    buildCollection: (HuggingFaceEmbedding, seq<Document>) -> seq<Chunk>,
    respond: (ChatEngine, string) -> Result<EngineResponse, string>)

  /** What the process finds when it starts: the API key variable and what is on disk. */
  datatype Environment = Environment(groqApiKey: Option<string>, persisted: seq<Chunk>, dataDir: Staging)

  const LlmModel := "llama3-8b-8192"
  const EmbeddingModel := "sentence-transformers/all-MiniLM-L6-v2"
  const EmbeddingDevice := "cpu"
  const ContextChatMode := "context"
  const SystemPrompt := "You are a helpful Knowledge Oracle. Answer strictly based on the provided context."
  const MissingKeyMessage := "GROQ_API_KEY not found in environment variables."
  const NotInitializedMessage := "Index not initialized. Please upload documents first."

  /** Python truthiness of an optional string: neither `None` nor empty. */
  predicate KeyConfigured(key: Option<string>)
  {
    key.Some? && key.value != ""
  }

  /** Installs the language model and the embedding model, or fails when no API key is set. */
  function InitializeModels(key: Option<string>): (r: Result<Settings, string>)
    ensures r.Failure? <==> key == None || key == Some("")
    ensures r.Failure? ==> r.error == MissingKeyMessage
    ensures r.Success? ==> r.value.llm.apiKey == key.value && r.value.llm.model == LlmModel
    ensures r.Success? ==> r.value.embedModel == HuggingFaceEmbedding(EmbeddingModel, EmbeddingDevice)
  {
    if !KeyConfigured(key) then Failure(MissingKeyMessage)
    else Success(Settings(GroqLlm(LlmModel, key.value), HuggingFaceEmbedding(EmbeddingModel, EmbeddingDevice)))
  }

  /** The chat engine `as_chat_engine` builds over an index. */
  function ContextEngine(index: Index, settings: Settings): ChatEngine
  {
    ChatEngine(index, ContextChatMode, SystemPrompt, settings.llm)
  }

  // ---------------------------------------------------------------------------
  // Abstract state and the specification of each operation on it
  // ---------------------------------------------------------------------------

  /** The service's fields plus the two directories it owns on disk. */
  datatype ServiceState = ServiceState(
    index: Option<Index>,
    chatEngine: Option<ChatEngine>,
    collection: seq<Chunk>,
    staging: Staging)

  /** The engine exists exactly when the index does, and is the context engine over it. */
  ghost predicate Coherent(s: ServiceState, settings: Settings)
  {
    && (s.index.Some? <==> s.chatEngine.Some?)
    && (s.index.Some? ==> s.chatEngine.value == ContextEngine(s.index.value, settings))
  }

  function CreateChatEngineSpec(s: ServiceState, settings: Settings): ServiceState
  {
    if s.index.Some? then s.(chatEngine := Some(ContextEngine(s.index.value, settings))) else s
  }

  function InitializeIndexSpec(s: ServiceState, settings: Settings): ServiceState
  {
    if |s.collection| > 0 then CreateChatEngineSpec(s.(index := Some(Index(s.collection))), settings)
    else s
  }

  /** The state right after construction succeeded. */
  function InitialState(env: Environment, settings: Settings): ServiceState
  {
    InitializeIndexSpec(ServiceState(None, None, env.persisted, env.dataDir), settings)
  }

  /** The staging directory after writing `files`, in order, into an empty directory. */
  function Staged(files: seq<Upload>): (d: Staging)
    ensures forall k :: k in d <==> exists i :: 0 <= i < |files| && files[i].filename == k
    decreases |files|
  {
    if files == [] then map[]
    else
      var last := files[|files| - 1];
      Staged(files[..|files| - 1])[last.filename := last.content]
  }

  /** Wipe both directories, stage the batch, read it, rebuild the collection and the index. */
  function IngestSpec(caps: Capabilities, settings: Settings, s: ServiceState, files: seq<Upload>)
    : (ServiceState, Result<nat, string>)
  {
    var wiped := s.(collection := [], staging := Staged(files));
    match caps.readDirectory(wiped.staging)
    case Failure(e) => (wiped, Failure(e))
    case Success(docs) =>
      var built := wiped.(collection := caps.buildCollection(settings.embedModel, docs));
      (CreateChatEngineSpec(built.(index := Some(Index(built.collection))), settings), Success(|files|))
  }

  function ChatSpec(caps: Capabilities, s: ServiceState, message: string): (r: Result<EngineResponse, string>)
    ensures s.chatEngine.None? ==> r == Failure(NotInitializedMessage)
    ensures s.chatEngine.Some? ==> r == caps.respond(s.chatEngine.value, message)
  {
    if s.chatEngine.None? then Failure(NotInitializedMessage)
    else caps.respond(s.chatEngine.value, message)
  }

  // ---------------------------------------------------------------------------
  // Properties of the specification
  // ---------------------------------------------------------------------------

  /** A file's content is what staging keeps under its name when no later upload reuses that name. */
  lemma {:induction false} LastWriteWins(files: seq<Upload>, i: nat)
    requires i < |files|
    requires forall j :: i < j < |files| ==> files[j].filename != files[i].filename
    ensures files[i].filename in Staged(files)
    ensures Staged(files)[files[i].filename] == files[i].content
  {
    if i < |files| - 1 {
      var prefix := files[..|files| - 1];
      assert prefix[i] == files[i];
      LastWriteWins(prefix, i);
    }
  }

  /** Every staged file holds the content of the last upload with its name. */
  lemma StagedHoldsLastUpload(files: seq<Upload>, name: string)
    requires name in Staged(files)
    ensures exists i :: 0 <= i < |files| && files[i].filename == name
                        && Staged(files)[name] == files[i].content
                        && forall j :: i < j < |files| ==> files[j].filename != name
  {
    var i :| 0 <= i < |files| && files[i].filename == name;
    while exists j :: i < j < |files| && files[j].filename == name
      invariant 0 <= i < |files| && files[i].filename == name
      decreases |files| - i
    {
      var later :| i < later < |files| && files[later].filename == name;
      i := later;
    }
    LastWriteWins(files, i);
  }

  /** Staging never holds more files than were uploaded; uploads sharing a name collapse into one file. */
  lemma {:induction false} StagedSize(files: seq<Upload>)
    ensures |Staged(files)| <= |files|
  {
    if files != [] {
      var prefix := files[..|files| - 1];
      var last := files[|files| - 1];
      StagedSize(prefix);
      assert Staged(files).Keys == Staged(prefix).Keys + {last.filename};
      assert |Staged(prefix).Keys + {last.filename}| <= |Staged(prefix).Keys| + |{last.filename}|;
    }
  }

  /** Two uploads named alike leave a single staged file, holding the second one's content. */
  lemma DuplicateNameStagesOnce(name: string, first: Bytes, second: Bytes)
    ensures Staged([Upload(name, first), Upload(name, second)]) == map[name := second]
  {
  }

  /** After construction the index and the engine are present iff the persisted collection is non-empty. */
  lemma InitialIndexIffPersisted(env: Environment, settings: Settings)
    ensures InitialState(env, settings).index.Some? <==> |env.persisted| > 0
    ensures InitialState(env, settings).chatEngine.Some? <==> |env.persisted| > 0
    ensures |env.persisted| > 0 ==> InitialState(env, settings).index == Some(Index(env.persisted))
    ensures Coherent(InitialState(env, settings), settings)
  {
  }

  /**
   * Ingestion is a rebuild: the new collection and staging directory and the
   * returned count depend on the batch alone, never on what was there before.
   */
  lemma IngestIsRebuild(caps: Capabilities, settings: Settings, s1: ServiceState, s2: ServiceState, files: seq<Upload>)
    ensures IngestSpec(caps, settings, s1, files).0.collection == IngestSpec(caps, settings, s2, files).0.collection
    ensures IngestSpec(caps, settings, s1, files).0.staging == Staged(files)
    ensures IngestSpec(caps, settings, s1, files).0.staging == IngestSpec(caps, settings, s2, files).0.staging
    ensures IngestSpec(caps, settings, s1, files).1 == IngestSpec(caps, settings, s2, files).1
  {
  }

  /**
   * A successful ingestion returns the number of uploads and leaves an index
   * over exactly the chunks built from this batch, with its chat engine.
   */
  lemma IngestSuccess(caps: Capabilities, settings: Settings, s: ServiceState, files: seq<Upload>)
    ensures IngestSpec(caps, settings, s, files).1.Success? <==> caps.readDirectory(Staged(files)).Success?
    ensures IngestSpec(caps, settings, s, files).1.Success? ==>
      var t := IngestSpec(caps, settings, s, files).0;
      && IngestSpec(caps, settings, s, files).1.value == |files|
      && t.collection == caps.buildCollection(settings.embedModel, caps.readDirectory(Staged(files)).value)
      && t.index == Some(Index(t.collection))
      && t.chatEngine == Some(ContextEngine(Index(t.collection), settings))
  {
  }

  /**
   * A failed read leaves the collection empty (it was already wiped) and the
   * index and engine as they were.
   */
  lemma IngestFailure(caps: Capabilities, settings: Settings, s: ServiceState, files: seq<Upload>)
    requires caps.readDirectory(Staged(files)).Failure?
    ensures IngestSpec(caps, settings, s, files).1 == Failure(caps.readDirectory(Staged(files)).error)
    ensures IngestSpec(caps, settings, s, files).0 == s.(collection := [], staging := Staged(files))
  {
  }

  /** Ingestion keeps the engine coupled to the index. */
  lemma IngestPreservesCoherence(caps: Capabilities, settings: Settings, s: ServiceState, files: seq<Upload>)
    requires Coherent(s, settings)
    ensures Coherent(IngestSpec(caps, settings, s, files).0, settings)
  {
  }

  /**
   * After a successful ingestion the not-initialised error is gone: chat's
   * outcome is the outcome of the engine over the new collection.
   */
  lemma ChatAfterIngest(caps: Capabilities, settings: Settings, s: ServiceState, files: seq<Upload>, message: string)
    requires IngestSpec(caps, settings, s, files).1.Success?
    ensures
      var t := IngestSpec(caps, settings, s, files).0;
      ChatSpec(caps, t, message) == caps.respond(ContextEngine(Index(t.collection), settings), message)
  {
  }

  /** With no persisted records, chat fails until something is ingested. */
  lemma ChatBeforeIngest(caps: Capabilities, settings: Settings, env: Environment, message: string)
    requires |env.persisted| == 0
    ensures ChatSpec(caps, InitialState(env, settings), message) == Failure(NotInitializedMessage)
  {
  }

  // ---------------------------------------------------------------------------
  // The service object
  // ---------------------------------------------------------------------------

  class RAGService {
    var index: Option<Index>
    var chatEngine: Option<ChatEngine>
    /** The persisted vector collection. */
    var collection: seq<Chunk>
    /** The staging directory. */
    var staging: Staging
    const settings: Settings
    const caps: Capabilities

    function State(): ServiceState
      reads this
    {
      ServiceState(index, chatEngine, collection, staging)
    }

    ghost predicate Valid()
      reads this
    {
      Coherent(State(), settings)
    }

    /** Construction after the models were installed: start empty, then load the index. */
    constructor (settings: Settings, caps: Capabilities, env: Environment)
      ensures this.settings == settings && this.caps == caps
      ensures State() == InitialState(env, settings)
      ensures Valid()
    {
      this.settings := settings;
      this.caps := caps;
      index := None;
      chatEngine := None;
      collection := env.persisted;
      staging := env.dataDir;
      new;
      InitializeIndex();
    }

    /** Load an index over the persisted collection when it holds any record. */
    method InitializeIndex()
      modifies this`index, this`chatEngine
      ensures State() == InitializeIndexSpec(old(State()), settings)
      ensures |collection| > 0 ==> index == Some(Index(collection)) && chatEngine == Some(ContextEngine(Index(collection), settings))
      ensures |collection| == 0 ==> index == old(index) && chatEngine == old(chatEngine)
    {
      if |collection| > 0 {
        index := Some(Index(collection));
        CreateChatEngine();
      }
    }

    /** Build the chat engine over the index when there is one; otherwise change nothing. */
    method CreateChatEngine()
      modifies this`chatEngine
      ensures State() == CreateChatEngineSpec(old(State()), settings)
      ensures index.None? ==> chatEngine == old(chatEngine)
      ensures index.Some? ==> chatEngine == Some(ContextEngine(index.value, settings))
    {
      if index.Some? {
        chatEngine := Some(ContextEngine(index.value, settings));
      }
    }

    /** Wipe the collection and the staging directory, stage the batch and rebuild everything from it. */
    method IngestDocuments(files: seq<Upload>) returns (r: Result<nat, string>)
      modifies this
      ensures (State(), r) == IngestSpec(caps, settings, old(State()), files)
      ensures old(Valid()) ==> Valid()
    {
      collection := [];
      staging := map[];
      for i := 0 to |files|
        invariant staging == Staged(files[..i])
        invariant collection == [] && index == old(index) && chatEngine == old(chatEngine)
      {
        assert files[..i + 1][..i] == files[..i];
        staging := staging[files[i].filename := files[i].content];
      }
      assert files[..|files|] == files;
      var docs := caps.readDirectory(staging);
      if docs.Failure? {
        return Failure(docs.error);
      }
      collection := caps.buildCollection(settings.embedModel, docs.value);
      index := Some(Index(collection));
      CreateChatEngine();
      r := Success(|files|);
    }

    /**
     * Answer one message with the chat engine, or fail when there is none yet;
     * the engine's own failure is passed on. The service is left unchanged.
     */
    method Chat(message: string) returns (r: Result<EngineResponse, string>)
      ensures r == ChatSpec(caps, State(), message)
      ensures chatEngine.None? ==> r == Failure(NotInitializedMessage)
      ensures chatEngine.Some? ==> r == caps.respond(chatEngine.value, message)
    {
      if chatEngine.None? {
        return Failure(NotInitializedMessage);
      }
      r := caps.respond(chatEngine.value, message);
    }
  }

  /** The whole constructor: install the models (which may fail) and load the index. */
  method Create(env: Environment, caps: Capabilities) returns (r: Result<RAGService, string>)
    ensures r.Failure? <==> !KeyConfigured(env.groqApiKey)
    ensures r.Failure? ==> r.error == MissingKeyMessage
    ensures r.Success? ==> fresh(r.value) && r.value.Valid()
    ensures r.Success? ==> r.value.caps == caps
    ensures r.Success? ==> r.value.settings == InitializeModels(env.groqApiKey).value
    ensures r.Success? ==> r.value.State() == InitialState(env, r.value.settings)
  {
    var settings := InitializeModels(env.groqApiKey);
    if settings.Failure? {
      return Failure(settings.error);
    }
    var service := new RAGService(settings.value, caps, env);
    r := Success(service);
  }
}
