# doc-chat-be: the RAG service and its two handlers, modelled in Dafny

This project models the core of a small document-chat backend. Users upload
files. The service stages them in a data directory and rebuilds one global
vector collection from them. It then answers chat messages through a chat
engine built over that collection. The chat handler reports which retrieved
passages the answer cites.

Files:

- `wrappers.dfy`: `Option` and `Result`. A `Failure(message)` stands for a raised exception whose text is `message`.
- `models.dfy`: the response records `SourceNode`, `ChatResponse` and `UploadResponse` (app/models.py).
- `rag_service.dfy`: the `RAGService` class (app/rag_service.py).
  - Its state is four fields: `index`, `chatEngine`, the persisted `collection` (a sequence of chunks) and the `staging` directory (a map from file name to bytes).
  - Each method is tied to a specification function on a `ServiceState` value: `IngestSpec`, `ChatSpec`, `InitializeIndexSpec` and `CreateChatEngineSpec`.
  - The lemmas state the lifecycle properties about those functions.
- `routes.dfy`: the `/upload` and `/chat` handlers (app/routes.py), without HTTP transport. The per-node mapping is a set of functions and the accumulation is a `for` loop.

The libraries the service drives are never interpreted. They are the three function-valued fields of `Capabilities`, and nothing is assumed about them:

- `readDirectory`: the directory reader. It may fail.
- `buildCollection`: chunking and embedding into the collection.
- `respond`: the chat engine's answer to one message. It may fail, because it calls the embedding model and the language model.

The process environment is an `Environment` value: the `GROQ_API_KEY` variable, the collection already on disk, and the files already in the data directory.

The model follows the code. There is one global collection, and every upload wipes and rebuilds it. The `user_id` columns at app/database.py:24,41 are never read on this path.

Consequences of the code that the model makes explicit:

- Staging is a map keyed by file name. Two uploads with the same name leave one staged file, holding the later content (`DuplicateNameStagesOnce`). The upload response still reports `len(files)`, which counts uploads, not staged files.
- `ingest_documents` wipes both directories before it reads anything. When the reader then raises, the collection is already empty. The `index` and `chatEngine` fields still hold the objects from before the wipe (`IngestFailure`).

## Model

| member | source | states |
|---|---|---|
| RagService.InitializeModels | app/rag_service.py:18-35 | fails with "GROQ_API_KEY not found in environment variables." exactly when the key is unset or empty; otherwise the LLM gets that key and model `llama3-8b-8192`, and the embedder is `all-MiniLM-L6-v2` on `cpu` |
| RagService.Create | app/rag_service.py:12-16 | construction fails with the missing-key message iff no key is configured; otherwise it yields a fresh, coherent service with the given capabilities, in the initial state over the persisted collection |
| RagService.RAGService.constructor | app/rag_service.py:12-16 | starts with no index and no engine, then loads the index; the result is `InitialState(env)` and the engine is coupled to the index |
| RagService.RAGService.InitializeIndex | app/rag_service.py:37-51 | with a non-empty collection, sets the index over it and the context engine over that index; with an empty one, changes nothing |
| RagService.RAGService.CreateChatEngine | app/rag_service.py:53-58 | with no index, leaves the engine unchanged; with an index, sets the engine to the "context" engine with the fixed system prompt over it |
| RagService.RAGService.IngestDocuments | app/rag_service.py:60-87 | the new state and result are `IngestSpec` of the old state (wipe, stage in upload order, read, rebuild); it keeps the engine coupled to the index |
| RagService.RAGService.Chat | app/rag_service.py:89-94 | with no engine, fails with "Index not initialized. Please upload documents first."; with an engine, returns the engine's outcome (answer or raised error) unchanged; it modifies nothing |
| RagService.ChatSpec | app/rag_service.py:89-91 | with no engine, chat fails with the not-initialised message; with an engine, its outcome is the engine call's outcome |
| RagService.Staged | app/rag_service.py:70-73 | a name is staged iff some upload carries that name |
| RagService.LastWriteWins | app/rag_service.py:70-73 | an upload that no later upload renames over keeps its content in staging |
| RagService.StagedHoldsLastUpload | app/rag_service.py:70-73 | every staged file holds the content of the last upload with its name |
| RagService.StagedSize | app/rag_service.py:70-73 | staging never holds more files than were uploaded |
| RagService.DuplicateNameStagesOnce | app/rag_service.py:70-73 | two uploads with the same name stage one file with the second content |
| RagService.InitialIndexIffPersisted | app/rag_service.py:44-51 | after construction, index and engine are both present iff the persisted collection is non-empty; the index is over exactly that collection |
| RagService.IngestIsRebuild | app/rag_service.py:63-84 | the collection, staging and result after ingestion do not depend on the prior state: a rebuild, not an append |
| RagService.IngestSuccess | app/rag_service.py:81-87 | ingestion succeeds iff the reader succeeds on the staged batch; it then returns `len(files)` and leaves an index and engine over exactly the chunks built from this batch |
| RagService.IngestFailure | app/rag_service.py:63-81 | when the reader fails, its error propagates, the collection is empty, staging holds the batch, and index and engine are as before |
| RagService.IngestPreservesCoherence | app/rag_service.py:60-87 | ingestion keeps "engine present iff index present, and engine built over the index" |
| RagService.ChatAfterIngest | app/rag_service.py:82-94 | after a successful ingestion, the not-initialised error is gone: chat's outcome is that of the context engine over the new collection |
| RagService.ChatBeforeIngest | app/rag_service.py:44-51 | a service started over an empty collection fails chat with the not-initialised message |
| Routes.Snippet | app/routes.py:35 | the first min(200, len) characters of the text followed by "..."; at most 203 long; verbatim plus "..." when 200 or shorter |
| Routes.MetadataGet | app/routes.py:30-34 | the metadata value when the key is present, else the default, including when the metadata is None |
| Routes.ScoreOrZero | app/routes.py:36 | the score when truthy; 0.0 exactly when the score is missing or zero |
| Routes.ToSourceNode | app/routes.py:29-37 | `file_name` or "Unknown", `page_label` or "N/A", the snippet of the node text (ends in "...", body a prefix of the text, at most 203 long), and the score-or-zero |
| Routes.BuildSources | app/routes.py:27-37 | exactly one source per retrieved node, in the same order, each the mapping of its node |
| Routes.Chat | app/routes.py:20-44 | with no engine, fails with the not-initialised message; with an engine, fails with the engine's error iff the engine call fails, and otherwise the answer text is the engine's own and the sources map that same call's nodes one to one, in order |
| Routes.UploadFiles | app/routes.py:8-16 | the service state is that of ingestion; on success the response is `status="success"`, `files_processed = len(files)` and the fixed message; on failure the ingestion error is passed on |

## Left out

- Embedding and LLM invocation (HuggingFace, Groq) are not modelled. They appear only as the uninterpreted `buildCollection` and `respond`. A failure of the engine call, such as a rejected API key, is `respond` returning `Failure`, which chat passes on.
- The chat engine's conversation memory is not modelled. The "context" chat engine keeps history between calls, but here `respond` is a function of the engine and the message alone.
- ChromaDB persistence and the vector index internals are not modelled. The collection is a sequence of chunks, and an index is the chunks it was built over. A stale index after a failed ingestion is only the unchanged field; what a query against the deleted store would return is library behaviour.
- The directory reader is not modelled: it is `readDirectory`, which may fail. The model claims nothing about zero files, an empty directory or unreadable formats.
- `buildCollection` is total. An indexing or embedding failure inside `from_documents`, and any partial write it could leave, is not modelled.
- Filesystem effects are reduced to map updates. This covers `ensure_dirs`, `rmtree`, `open` and `copyfileobj`. Path joining is left out: absolute file names, names with separators, empty or missing names, and failed writes.
- Similarity scores are `real`, and only the falsy fallback is modelled. A NaN score, which Python treats as truthy, cannot be represented.
- Metadata values are strings. Non-string values, and a `None` stored under `file_name` or `page_label`, are not modelled.
- HTTP status mapping is not modelled. The handlers return `Failure(detail)` where the source raises `HTTPException(500, detail=str(e))`.
- FastAPI routing, CORS, the async handlers, the module-level singleton and the logging `print`s are transport and process wiring, so they are left out.
- Configuration loading is left out. The constants the core uses appear as Dafny constants.
- The SQLAlchemy schema and sessions are not used by this path and are left out.
