# Voice RAG agent: document store and agent turn bookkeeping

This project models, in Dafny, the deterministic core of the Python side of a
voice assistant that answers questions from uploaded documents.

- **Backend document store** (`backend/rag.py`). An uploaded file is turned
  into text by a parser chosen from its extension. PDF pages and CSV rows are
  flattened with fixed separators. The text is split into chunks. The chunks are
  appended to two parallel persisted lists, `documents` and `metadatas`, with
  one `{"source": name}` record per chunk. A query is answered by mapping the
  integer positions a similarity search returns onto those lists. Three
  queries report which sources are indexed, how many chunks there are, and
  whether the index is ready.
- **Agent turn handling** (`agent/agent.py`). The worker chooses its system
  prompt from the participant's metadata JSON. When a user turn ends, it
  retrieves context for a non-empty query and builds the `rag_sources` payload.
  It then injects exactly one assistant message into the chat context. Finished
  user and assistant utterances are formatted as `USER:<text>` and
  `BOT:<text>` transcript lines.

Modules: `Wrappers` (an `Option` type), `Strings` (Python whitespace,
lower-casing, `sep.join`, `str.split`, list filtering), `Rag`
(`backend/rag.py`) and `Agent` (`agent/agent.py`).

Foreign code is treated as opaque:
- The text splitter, the similarity search, `json.loads` and the backend HTTP
  call are function-valued parameters.
- What pypdf and pandas read from a file, and the UTF-8 decoding of its bytes,
  are given as inputs.
- The files on disk are the fields of `Rag.VectorStore`. The FAISS index is
  represented only by its vector count (`ntotal`).
- The LiveKit chat context is a small class whose `AddMessage` appends.
- What the agent would publish is returned to the caller.

## Model

| member | source | states |
|---|---|---|
| `Rag.Extension` | backend/rag.py:86 | The extension has no dot. It is empty when the name has no dot. Otherwise it is exactly the suffix of the lower-cased name after its last dot. |
| `Rag.ExtensionIs` | backend/rag.py:86 | For a non-empty, dot-free `e`, the extension is `e` exactly when the lower-cased name ends in `.` followed by `e` (both directions). |
| `Rag.ExtensionIsSuffix` | backend/rag.py:86 | The same fact, stated on the name's last `|e|+1` characters lower-cased. |
| `Rag.ExtensionOfUpperCase` | backend/rag.py:86 | `"A.PDF"` has extension `"pdf"`. |
| `Rag.ExtensionOfTrailingDot` | backend/rag.py:86 | `"notes."` has the empty extension. |
| `Rag.ExtensionOfLastDot` | backend/rag.py:86 | `"archive.tar.gz"` has extension `"gz"`: only the text after the last dot counts. |
| `Strings.SplitJoin` | backend/rag.py:86 | Joining the pieces of `s.split(c)` with `c` gives back `s`. |
| `Strings.SplitLast` | backend/rag.py:86 | The last piece of `s.split(c)` is the suffix after the last `c`. When `c` occurs, that suffix is preceded by a `c`. |
| `Rag.ParserForSuffix` | backend/rag.py:84-96 | A name ending in `.pdf` (any letter case) goes to the PDF parser and one ending in `.csv` to the CSV parser. Every other name, dot-less ones included, is decoded as text. |
| `Rag.ParseFile` | backend/rag.py:84-96 | The result is the PDF parser's, the CSV parser's or the decoded text, according to the name's suffix. |
| `Rag.ParsePdf` | backend/rag.py:41-61 | A missing pypdf is an ImportError. An unreadable PDF gives `""`. Otherwise the result is the non-blank pages, in page order, joined with `"\n\n"`. The loop is proved against that definition. |
| `Rag.PdfEmptyIffNoText` | backend/rag.py:48-56 | A readable PDF flattens to `""` exactly when every page is blank. |
| `Rag.RowText` | backend/rag.py:73 | A row's text is `""` exactly when every cell of the row is missing. |
| `Rag.ParseCsv` | backend/rag.py:64-81 | A missing pandas is an ImportError. An unreadable table falls back to the decoded bytes. Otherwise the result is the non-empty row texts, in row order, joined with `"\n\n"`. The loop is proved against that definition. |
| `Rag.CsvEmptyIffNoValues` | backend/rag.py:72-76 | A readable CSV flattens to `""` exactly when no row has a non-missing cell. |
| `Rag.VectorStore.constructor` | backend/rag.py:101-102 | A new store has no index and empty lists. |
| `Rag.VectorStore.IngestDocument` | backend/rag.py:139-172 | Blank text, or text that splits into no chunks, leaves the store unchanged. Otherwise `documents` becomes the loaded documents followed by the chunks, in order. `metadatas` grows by one `{"source": source}` per chunk. The index gains one vector per chunk. Equal list lengths are preserved, the chunk count grows by the number of chunks, and the index is ready afterwards. |
| `Rag.Load` | backend/rag.py:99-111 | Without an index file the store loads as no index and empty `documents` and `metadatas`, whatever the pickle holds. With an index file it loads the stored index and lists. |
| `Rag.Retrieve` | backend/rag.py:175-191 | With no index or no documents the result is `([], [])`. Otherwise, when `min(k, ntotal)` is 0 or less, the FAISS search fails and retrieve reports that failure, and only then. Otherwise the search is asked for `min(k, ntotal)` results. Each hit inside `[0, len(documents))` yields, in search order, its document and its metadata, or `{"source": "unknown"}` past the end of `metadatas`. The two lists have equal length. |
| `Rag.RetrieveDrawsFromStore` | backend/rag.py:185-188 | When retrieve succeeds, every returned document is a stored chunk. Every returned metadata is a stored record or the "unknown" placeholder. On a store with equal list lengths, the placeholder is never substituted. |
| `Rag.RetrieveBound` | backend/rag.py:183-188 | When the search returns no more than it is asked for, a successful retrieve returns at most `k` and at most `ntotal` results. |
| `Rag.DocumentCount` | backend/rag.py:207-210 | The count is 0 without an index file, and otherwise the number of stored chunks. |
| `Rag.IsIndexReady` | backend/rag.py:213-216 | Ready exactly when an index file exists and at least one chunk is stored. |
| `Rag.ReadyIffRetrievable` | backend/rag.py:177-183 | With a search that finds position 0, the index is ready exactly when retrieve does anything other than answer `([], [])`. When ready and the count is positive, it returns a document. |
| `Rag.Sources` | backend/rag.py:200-203 | A name is among the sources exactly when some metadata record is a dict whose `source` is that non-empty name. |
| `Rag.SourcesAfterIngest` | backend/rag.py:159-169 | Appending the records of an ingest adds exactly its source to the sources when the source is non-empty, and nothing otherwise. |
| `Rag.GetIndexedDocuments` | backend/rag.py:194-204 | With no stored chunks the result is `[]`. Otherwise each distinct truthy source appears exactly once, in no particular order. |
| `Agent.SelectSystemPrompt` | agent/agent.py:282-290 | The choice is the metadata's `system_prompt` exactly when the metadata is non-empty, decodes to an object, and carries a truthy `system_prompt`. Empty metadata, a decode error, or a missing or falsy field gives the default. A decoded non-object is the AttributeError the source does not catch. A chosen prompt is always truthy. |
| `Agent.SplitTagOfTagged` | agent/agent.py:343 | A line built as tag + `:` + text, with a colon-free tag, splits back at its first colon into exactly that tag and text. |
| `Agent.UserTranscriptLine` | agent/agent.py:332-343 | A line is produced exactly when the transcript is non-empty and final (final when the event does not say). The line is `USER:` + transcript and reads back as that tag and text. |
| `Agent.AgentTranscriptLine` | agent/agent.py:353-370 | A line is produced exactly when the role is `assistant` and the text is non-empty. The line is `BOT:` + text and reads back as that tag and text. |
| `Agent.SourceLabels` | agent/agent.py:217-224 | There is one label per metadata record, in order. A dict gives its `source` or `"unknown"`; anything else gives `"unknown"`. |
| `Agent.LabelsComeFromStore` | agent/agent.py:217-224 | For what the backend successfully retrieves from a store with equal list lengths, every label is the label of a stored record. |
| `Agent.ContextMessage` | agent/agent.py:231-242 | With no documents the message is the fixed "No relevant context" notice. Otherwise it is the fixed preamble followed by the documents joined with `"\n\n---\n\n"`, starting with the first document. The two kinds never coincide. |
| `Agent.ContextMessageAppend` | agent/agent.py:232 | More retrieved documents extend the context after one more separator, in order. |
| `Agent.ChatContext.AddMessage` | agent/agent.py:233-236 | Adding a message appends it to the chat context. |
| `Agent.RagAgent.constructor` | agent/agent.py:176-181 | The agent keeps its instructions and whether a sources publisher was supplied. |
| `Agent.RagAgent.OnUserTurnCompleted` | agent/agent.py:189-242 | An empty or missing query changes nothing and publishes nothing. Otherwise a missing or `None` `documents`/`metadatas` reads as `[]`. The sources payload is handed over only when a publisher is configured and documents were found. Exactly one assistant context message is appended to the chat context. |

## Left out

- Embedding (`SentenceTransformer`), `_l2_normalize` and the FAISS inner-product search are floating-point work in foreign libraries. The search is a parameter that returns integer positions, and scores are not modelled. Vector dimensions are not modelled either, so a dimension mismatch with an existing index is not an outcome of the model.
- The file reads and writes inside `_load_store` and `_save_store` (`_faiss_read`, `_faiss_write`, pickle) are file I/O. The store's fields stand for the two files; a missing metadata file is the store with empty lists. A pickle without a `documents` or `metadatas` key is not modelled.
- A failed search is modelled as the `SearchRejected` outcome. The HTTP error it becomes, and the empty result the agent's `retrieve_context` turns that error into, lie inside the `retrieveContext` parameter.
- The pypdf, pandas and text-splitter calls are foreign. Pages, rows (each value already rendered as text) and chunks are inputs. A page whose extracted text is `None` is given as `""`, which parse_pdf treats the same way.
- The UTF-8 decoding with `errors="ignore"` is foreign, and the decoded text is an input.
- `Strings.Lower` lower-cases ASCII letters only. Python's `str.lower` is Unicode-aware. This changes only the extension string itself, never which parser is chosen, because no non-ASCII character lower-cases to any letter of `pdf` or `csv`.
- JSON numbers are modelled as reals. `json.dumps` of the sources payload is not modelled, and the payload is returned as a datatype.
- `Agent.SelectSystemPrompt`: the TypeError branch is folded into the decode-error case, because participant metadata is always a string here.
- Provider selection (`get_llm`, `get_stt`, `get_tts`) depends on which imports are available. The HTTP request in `retrieve_context`, including its empty fallback on request errors, is a parameter.
- The room event handlers only print. `asyncio.create_task` publishing, the `isconnected` checks, `set_attributes`, exceptions raised by the publisher, and the final `asyncio.Event().wait()` are concurrency and I/O.
- `backend/main.py` (HTTP routes, CORS, room creation, agent dispatch, token issuance) and `backend/config.py` (environment reads) are thin wrappers over libraries, so they are not modelled.
- The browser client (session lifecycle, audio sinks, transcript de-duplication, the citation list) is not part of this model. Its source is not among the files modelled here.
