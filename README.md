# Research-assistant core of my-agentes, in Dafny

This project models the code that surrounds the library calls in the support
agent's research and extractor nodes. It covers four parts.

- **Vector-store lifecycle** (`vectorstore.py`). The module globals
  `_vectorstore`, `_retriever` and `_embeddings` become the class
  `VectorStore.ResearchIndex`, and its methods update those fields.
  - `Initialize` either reuses the store or builds a new one.
  - Eligible files are the `*.txt` names other than `README.txt`.
  - On no files, an empty load or any exception, an empty collection named
    `base_conocimientos` is installed.
  - The retriever is rebuilt with `search_type = "mmr"`, `k = 4` and `fetch_k = 10`.
  - `search_documents` overwrites the shared retriever's `k` in place.
  - `add_documents` runs its own splitter, which has no separators.
  - Reset nulls both handles.
  - The invariant `Valid()` holds between calls: both handles are null, or
    both are set and consistent, and there is at most one embeddings client.
  - Loading, splitting and MMR search are library code. They enter the model as
    inputs: `Ingest` holds what the listing, loader and index build produced;
    `Splitter` and `Mmr` are function values.
- **Research tools** (`tools.py`). These are pure functions.
  - `buscar_documentos` has three outcomes:
    - found: `[Fuente: …]` passages joined by a blank line, plus an artefact
      list whose previews are cut at 200 characters and end in `"..."`;
    - nothing found: a fixed message;
    - search failed: an error-prefixed message.
  - `guardar_nota` checks that both fields are present, then that the title
    has at most 100 characters.
  - `listar_notas` returns a constant placeholder.
  - Also modelled: the tool list and the web-search configuration.
- **Contact extractor** (`extractor/node.py`).
  - `_is_present` is `strip().lower()` checked against six sentinels.
  - `Extract` is a method that builds the state update one conditional key at
    a time. `name` maps to `customer_name`, `phone` to `phone` and `age` to
    `my_age`. The e-mail is dropped.
  - The model's structured reply is an input.
- **Path configuration** (`config.py`).
  - The filesystem is a map from existing paths to directory or file nodes,
    held in the class `Config.FileSystem`.
  - The project-root search is a loop over `[here, *here.parents]`.
  - Each directory comes from its environment variable, or a default when the
    variable is unset or empty.
  - The directories are created, and the `README.txt` placeholder is written
    when needed.
  - `ConfigRegistry` models the `get_config` singleton.
  - Paths are values `Path(absolute, parts)`, with `/` (`Join`), `.parent` and
    `Path(str)` (`ParsePath`).

Modules: `Wrappers` (Option and Result), `Paths`, `VectorStore`,
`ResearchTools`, `Extractor` and `Config`. Each sits in the file of the same
name.

## Model

| member | source | states |
|---|---|---|
| VectorStore.IsEligible | src/agents/support/nodes/research/vectorstore.py:62-65 | A listed name is indexed when it matches `*.txt` and is not `README.txt`. |
| VectorStore.EligibleFiles | src/agents/support/nodes/research/vectorstore.py:62-65 | A name is kept exactly when it is listed, ends in `.txt` and is not `README.txt`. The result is empty exactly when no listed name is eligible. |
| VectorStore.EligibleFilesAppend | src/agents/support/nodes/research/vectorstore.py:62-65 | Filtering keeps glob order: the filter of `a + b` is the filter of `a` followed by the filter of `b`. |
| VectorStore.PlanBuild | src/agents/support/nodes/research/vectorstore.py:67-110 | A populated store results exactly when there are eligible files (or `force_reload`), the loader returned a non-empty list and building the index raised nothing. Its chunks are then the output of the five-separator, 1000/200 splitter. Every other branch gives an empty store. |
| VectorStore.Store.AddDocuments | src/agents/support/nodes/research/vectorstore.py:182 | The collection's entries are the old ones followed by exactly the given chunks. |
| VectorStore.Retriever.Invoke | src/agents/support/nodes/research/vectorstore.py:163 | Returns the MMR selection over the store's chunks with the retriever's current `k` and `fetch_k`. |
| VectorStore.ResearchIndex.constructor | src/agents/support/nodes/research/vectorstore.py:24-26 | At import time all three handles are `None` and no embeddings client exists. |
| VectorStore.ResearchIndex.GetEmbeddings | src/agents/support/nodes/research/vectorstore.py:29-34 | Returns the `text-embedding-3-small` client. It creates one only when none exists, so at most one is ever built. The store handles are untouched. |
| VectorStore.ResearchIndex.CreateEmptyStore | src/agents/support/nodes/research/vectorstore.py:128-134 | A fresh, empty collection named `base_conocimientos` at the vector-store directory, using the given embeddings. |
| VectorStore.ResearchIndex.BuildStore | src/agents/support/nodes/research/vectorstore.py:61-110 | The store a non-short-circuit initialization installs: fresh, named `base_conocimientos`, persisting under the vector-store directory, and holding exactly the chunks `PlanBuild` chose (none on any fallback path). |
| VectorStore.ResearchIndex.Initialize | src/agents/support/nodes/research/vectorstore.py:37-125 | When a store exists and there is no forced reload, returns that store and changes no handle, not even a `k` a caller overwrote. Otherwise it installs a fresh store with the planned chunks and a fresh retriever over it with `mmr`, `k = 4` and `fetch_k = 10`. In both cases `Valid()` is kept, so the handles are both set. |
| VectorStore.ResearchIndex.GetRetriever | src/agents/support/nodes/research/vectorstore.py:137-147 | An existing retriever is returned unchanged, with its `k`. When there is none, which is the case after a reset, it initializes and returns a fresh retriever with `k = 4`. |
| VectorStore.ResearchIndex.SearchDocuments | src/agents/support/nodes/research/vectorstore.py:150-163 | The shared retriever's `k` becomes the caller's `k` and stays so. `fetch_k` stays 10, so `k > fetch_k` is reachable. The result is the MMR selection with those values. The store is not changed. |
| VectorStore.ResearchIndex.AddDocuments | src/agents/support/nodes/research/vectorstore.py:166-183 | Initializes first only if there is no store. Then the store holds its previous chunks followed by exactly the chunks of the separator-less 1000/200 splitter. |
| VectorStore.ResearchIndex.Reset | src/agents/support/nodes/research/vectorstore.py:186-191 | Both handles become null. The embeddings client is kept. |
| VectorStore.LifecycleScenario | src/agents/support/nodes/research/vectorstore.py:137-191 | A worked call sequence. A `k` of 20 set by a search stays on the retriever, above `fetch_k`, through a plain re-initialization and `get_retriever`. Only after a reset does `get_retriever` build a new retriever with `k = 4` over a new store. The embeddings client is built once. |
| ResearchTools.Source | src/agents/support/nodes/research/tools.py:34 | The document's `source` metadata entry, or `desconocida` when there is none. |
| ResearchTools.Passage | src/agents/support/nodes/research/tools.py:34 | One document's text for the model is the `[Fuente: …]` header line followed by its page content. |
| ResearchTools.Preview | src/agents/support/nodes/research/tools.py:42 | Text of at most 200 characters is returned whole. Longer text gives its first 200 characters followed by `...`, 203 characters in all. |
| ResearchTools.Passages | src/agents/support/nodes/research/tools.py:33-36 | One passage per document, in retrieval order. |
| ResearchTools.Artifacts | src/agents/support/nodes/research/tools.py:39-45 | One artefact per document, in order. Each holds that document's source and the preview of its text. |
| ResearchTools.Join | src/agents/support/nodes/research/tools.py:33 | `sep.join(parts)`. Its layout is stated by `ResearchTools.JoinPartAt`, `ResearchTools.JoinSepAt` and `ResearchTools.JoinLastEnds`. |
| ResearchTools.JoinPartAt | src/agents/support/nodes/research/tools.py:33 | In `sep.join(parts)`, part `i` appears intact at its offset. |
| ResearchTools.JoinSepAt | src/agents/support/nodes/research/tools.py:33 | Every part except the last is followed by the separator. |
| ResearchTools.JoinLastEnds | src/agents/support/nodes/research/tools.py:33 | The last part ends the joined string. |
| ResearchTools.JoinedPartLayout | src/agents/support/nodes/research/tools.py:33-36 | A part of the form `header + body` shows its header, then its body, then the separator or the end of the string. |
| ResearchTools.FormatSearch | src/agents/support/nodes/research/tools.py:26-50 | A raised search gives `Error al buscar en documentos: ` followed by the message, and no artefacts. An empty result gives the fixed "no information" message and no artefacts. Otherwise the content is the passages joined by `\n\n` and the artefacts are one per document. |
| ResearchTools.SearchContentLayout | src/agents/support/nodes/research/tools.py:33-45 | In the joined content, document `i`'s `[Fuente: s]` header, where `s` is its source (the one `Artifacts` records as artefact `i`'s `fuente`), then its page content, then a blank line (or the end when it is the last document) all sit at its offset. |
| ResearchTools.OutcomeKindRecoverable | src/agents/support/nodes/research/tools.py:26-50 | From the content alone a caller can tell "found", "nothing found" and "search failed" apart: each outcome maps to its own kind. |
| ResearchTools.BuscarDocumentos | src/agents/support/nodes/research/tools.py:12-47 | Searches the shared index with `k = 4`, which stays on the retriever. The reply is the formatting of exactly what MMR returned. |
| ResearchTools.GuardarNota | src/agents/support/nodes/research/tools.py:96-105 | An empty title or content gives the "required" error; this check comes before the length check. A longer title than 100 characters gives the "too long" error. Anything else gives the confirmation carrying the title. |
| ResearchTools.GuardarNotaOutcome | src/agents/support/nodes/research/tools.py:96-105 | A reply is an error exactly when a field is empty or the title is over 100 characters, so exactly 100 is accepted. A success reply confirms exactly the given title. |
| ResearchTools.ListarNotas | src/agents/support/nodes/research/tools.py:125 | The constant placeholder, which names the `guardar_nota` tool at its fixed position. |
| ResearchTools.GetResearchTools | src/agents/support/nodes/research/tools.py:128-140 | Four tools with distinct names: document search, note saving, note listing, and web search with 5 results, `basic` depth, the answer included and raw content excluded. |
| Extractor.LStrip | src/agents/support/nodes/extractor/node.py:30 | The result is a suffix of the input. Everything it drops is whitespace, and it does not itself start with whitespace. |
| Extractor.RStrip | src/agents/support/nodes/extractor/node.py:30 | The result is a prefix of the input. Everything it drops is whitespace, and it does not itself end with whitespace. |
| Extractor.Strip | src/agents/support/nodes/extractor/node.py:30 | The stripped value neither starts nor ends with whitespace. |
| Extractor.StripIsSlice | src/agents/support/nodes/extractor/node.py:30 | The stripped value is the slice of the input that starts where the leading whitespace ends, with only whitespace before and after it, so `strip()` removes nothing else. |
| Extractor.LowerChar | src/agents/support/nodes/extractor/node.py:30 | `A`–`Z` map to `a`–`z` and KELVIN SIGN maps to `k`. Every other character maps to itself. So no ASCII capital is left, and whitespace stays whitespace. |
| Extractor.Lower | src/agents/support/nodes/extractor/node.py:30 | The model's lower-casing keeps the length. Python's `str.lower()` need not: `"İ".lower()` has two characters. |
| Extractor.LStripRespectsCase | src/agents/support/nodes/extractor/node.py:30 | Left-stripping two strings that are equal up to case gives strings that are equal up to case. |
| Extractor.RStripRespectsCase | src/agents/support/nodes/extractor/node.py:30 | Right-stripping two strings that are equal up to case gives strings that are equal up to case. |
| Extractor.IsPresent | src/agents/support/nodes/extractor/node.py:27-31 | `_is_present`: `None` is not present, and neither is a value whose stripped, lower-cased form is one of `""`, `none`, `null`, `n/a`, `na`, `unknown`. Its contract states that a present value has non-blank content. |
| Extractor.PresenceIgnoresCase | src/agents/support/nodes/extractor/node.py:27-31 | Strings equal up to letter case are both present or both absent. |
| Extractor.LStripSpacesPrefix | src/agents/support/nodes/extractor/node.py:30 | Leading whitespace does not change the left-stripped value. |
| Extractor.RStripSpacesSuffix | src/agents/support/nodes/extractor/node.py:30 | Trailing whitespace does not change the right-stripped value. |
| Extractor.LStripThenSuffix | src/agents/support/nodes/extractor/node.py:30 | Trailing whitespace does not change the stripped value. |
| Extractor.PresenceIgnoresSurroundingSpace | src/agents/support/nodes/extractor/node.py:27-31 | Surrounding a value with whitespace on either side does not change whether it is present. |
| Extractor.Extract | src/agents/support/nodes/extractor/node.py:19-39 | When `customer_name` is already set, the update is empty and the model is not consulted. Otherwise the model gets the system prompt followed by the history. A key is in the update exactly when its field is present, and it holds the raw, un-normalised value: `name` → `customer_name`, `phone` → `phone`, `age` → `my_age`. The three keys are distinct, so no insertion overwrites another. No other key appears. |
| Extractor.UpdateShapeUnique | src/agents/support/nodes/extractor/node.py:33-38 | An update is determined by which keys are inserted and the values they hold. |
| Extractor.UpdateIgnoresEmail | src/agents/support/nodes/extractor/node.py:33-38 | The update is determined by the reply, and changing only its e-mail gives the same update. |
| Paths.Path.Join | src/agents/support/nodes/research/config.py:42 | `p / name` appends one component and keeps whether `p` is absolute. |
| Paths.Path.Parent | src/agents/support/nodes/research/config.py:31 | `.parent` drops the last component. The root and `.` are their own parent. |
| Paths.Path.Ancestor | src/agents/support/nodes/research/config.py:26 | The `i`-th entry of `[p, *p.parents]` is `p` without its last `i` components. |
| Paths.SlashIndex | src/agents/support/nodes/research/config.py:44 | The position of the first `/`, or the length when there is none. |
| Paths.Components | src/agents/support/nodes/research/config.py:44 | Every component `Path(str)` yields is non-empty, not `.`, and free of `/`. |
| Paths.ParsePath | src/agents/support/nodes/research/config.py:44 | `Path(str)` gives a well-formed path, and it is absolute exactly when the string starts with `/`. |
| Paths.SlashIndexAfter | src/agents/support/nodes/research/config.py:44 | In `a + "/" + rest`, where `a` has no slash, the first `/` follows `a`. |
| Paths.ComponentsCons | src/agents/support/nodes/research/config.py:44 | A component followed by `/` is split off in front of the rest. |
| Paths.ComponentsOfJoin | src/agents/support/nodes/research/config.py:44 | Splitting `/`-joined components returns those components. |
| Paths.Render | src/agents/support/nodes/research/vectorstore.py:97 | `str(path)`, the string handed to Chroma as the persist directory. An absolute path starts with `/`. `Paths.ParseRender` states its inverse. |
| Paths.ParseRender | src/agents/support/nodes/research/config.py:44 | `Path(str(p)) == p` for every well-formed path. |
| Config.Fallback | src/agents/support/nodes/research/config.py:31 | Five levels up from the file: its components without the last five, and none when it has fewer. Absoluteness is kept. |
| Config.IsProjectRoot | src/agents/support/nodes/research/config.py:21-31 | Specifies the root: the first of `[here, *here.parents]` holding `pyproject.toml`, or the five-levels-up fallback when none does. |
| Config.ProjectRootUnique | src/agents/support/nodes/research/config.py:21-31 | The root specification picks at most one path. |
| Config.FindProjectRoot | src/agents/support/nodes/research/config.py:21-31 | Returns the first of `[here, *here.parents]` that holds `pyproject.toml`, or the five-levels-up fallback when none does. |
| Config.EnvPath | src/agents/support/nodes/research/config.py:37-49 | An unset or empty variable gives the default. Otherwise the path is parsed from the value as given. |
| Config.PathMap | src/agents/support/nodes/research/config.py:37-76 | Exactly the keys `project_root`, `documentos`, `datos` and `chroma_db`. `documentos` and `datos` come from their variables, defaulting to `root/"documentos"` and `root/"datos"`. `chroma_db` is always `datos/"chroma_db"`. |
| Config.MakeDirs | src/agents/support/nodes/research/config.py:54-56 | `mkdir(parents=True, exist_ok=True)` adds the directory and its missing ancestors, every entry it adds is a directory, and every existing entry is left as it was. |
| Config.MakeDirsNoop | src/agents/support/nodes/research/config.py:54-56 | Making a directory whose ancestors all exist changes nothing. |
| Config.HasTxtFile | src/agents/support/nodes/research/config.py:60 | `list(dir.glob("*.txt"))` is not empty: some existing entry is a direct child of the directory whose name ends in `.txt`. |
| Config.NeedsPlaceholder | src/agents/support/nodes/research/config.py:60 | The write condition: the documents directory has no `*.txt` entry and no `README.txt`. |
| Config.Bootstrap | src/agents/support/nodes/research/config.py:53-69 | After the three directories are made, the placeholder is written exactly when the documents directory has no `*.txt` entry and no `README.txt`. |
| Config.ReadmeIsTxtChild | src/agents/support/nodes/research/config.py:59-60 | The placeholder itself matches `documentos/*.txt`. |
| Config.BootstrapEstablishes | src/agents/support/nodes/research/config.py:54-69 | Afterwards the documents directory holds a `*.txt` entry, all three directories and their ancestors exist, and nothing that existed disappears. |
| Config.BootstrapIdempotent | src/agents/support/nodes/research/config.py:59-69 | A second bootstrap changes nothing, so the placeholder is never written twice. |
| Config.BootstrapWritesOnlyPlaceholder | src/agents/support/nodes/research/config.py:54-69 | Existing entries keep their contents, every new entry is a directory or the placeholder, and when the condition holds the placeholder holds the fixed text. |
| Config.ResearchConfig.DocumentosDir | src/agents/support/nodes/research/config.py:78-81 | The `documentos_dir` property: the `documentos` entry of the path map. `Config.ConfigProperties` states its value. |
| Config.ResearchConfig.DatosDir | src/agents/support/nodes/research/config.py:83-86 | The `datos_dir` property: the `datos` entry of the path map. |
| Config.ResearchConfig.ChromaDbDir | src/agents/support/nodes/research/config.py:88-91 | The `chroma_db_dir` property: the `chroma_db` entry of the path map. |
| Config.ResearchConfig.ProjectRoot | src/agents/support/nodes/research/config.py:93-96 | The `project_root` property: the `project_root` entry of the path map. |
| Config.ConfigProperties | src/agents/support/nodes/research/config.py:78-96 | The four properties return the path map's entries: the root, the environment-or-default directories, and `chroma_db_dir == datos_dir/"chroma_db"`. |
| Config.InitializePaths | src/agents/support/nodes/research/config.py:33-76 | Returns the path map, and leaves the filesystem as the bootstrap of the old filesystem for those directories. |
| Config.NewResearchConfig | src/agents/support/nodes/research/config.py:17-19 | `ResearchConfig()` finds the root, then initializes the paths. |
| Config.ConfigRegistry.constructor | src/agents/support/nodes/research/config.py:130 | No configuration exists at import time. |
| Config.ConfigRegistry.GetConfig | src/agents/support/nodes/research/config.py:132-137 | The first call builds the configuration, touching the filesystem once. Every later call returns that same configuration and leaves the filesystem alone. At most one is ever built. |
| Config.ConfigRegistry.GetDocumentosDir | src/agents/support/nodes/research/config.py:143-145 | The singleton's `documentos_dir`. A later call leaves the configuration and the filesystem alone. On the first call it builds the configuration as `GetConfig` does, and the result is `RESEARCH_DOCUMENTOS_DIR` or, when that is unset or empty, `project_root/"documentos"`. |
| Config.ConfigRegistry.GetDatosDir | src/agents/support/nodes/research/config.py:147-149 | The singleton's `datos_dir`. A later call leaves the configuration and the filesystem alone. On the first call it builds the configuration as `GetConfig` does, and the result is `RESEARCH_DATOS_DIR` or, when that is unset or empty, `project_root/"datos"`. |
| Config.ConfigRegistry.GetChromaDbDir | src/agents/support/nodes/research/config.py:151-153 | The singleton's `chroma_db_dir`, always `datos_dir/"chroma_db"`. A later call leaves the configuration and the filesystem alone. On the first call it builds the configuration as `GetConfig` does, and `datos_dir` is `RESEARCH_DATOS_DIR` or, when that is unset or empty, `project_root/"datos"`. |

## Left out

- Text chunking (`RecursiveCharacterTextSplitter`) and MMR retrieval are library algorithms. Both are opaque function inputs, and no chunk-size, overlap or ranking property is claimed.
- Chroma persistence: `Store.chunks` holds only the chunks added through that handle.
  - An "empty" store in fact opens whatever the persist directory already holds.
  - Every build, forced or not, adds to that persisted collection rather than replacing it. Importing the research node (src/agents/support/nodes/research/node.py:13) builds once per process, so each start with a `.txt` file other than `README.txt` in `documentos` adds the loaded chunks again.
- VectorStore.ResearchIndex.Reset: only nulls the in-memory handles. Persisted entries stay (vectorstore.py:186-191).
- VectorStore.ResearchIndex.Initialize: exceptions raised outside the `try` block are not modelled. These come from:
  - the embeddings constructor;
  - the configuration getters at vectorstore.py:54-55, which may create directories;
  - the glob at line 62;
  - the `DirectoryLoader` constructor at line 71;
  - empty-store creation at lines 107 and 110;
  - `as_retriever`;
  - the statistics call.

  `_create_empty_vectorstore` is also taken never to raise at line 103, inside the `try`. If it raised there, line 107 would try it again.
- VectorStore.ResearchIndex.AddDocuments: exceptions from the splitter (vectorstore.py:181) and from the store's `add_documents`, which embeds the chunks through the OpenAI client (line 182), are not modelled. There is no `try`, so either one reaches the caller. The store may then have been initialized (line 175) with nothing added. The model always appends the split chunks.
- VectorStore.ResearchIndex.SearchDocuments: an exception from `retriever.invoke` (vectorstore.py:163) is not modelled. It would reach the caller after line 162 had already written the new `k` into the shared retriever. The model always returns the MMR result.
- VectorStore.ResearchIndex.Initialize: the directories come from the configuration. Here they are the parameter `chromaDir`, plus the listing held in `Ingest`.
- The statistics call in `initialize_vectorstore` and `ResearchConfig.get_stats` are left out. They scan the filesystem, count bytes and divide in floating point.
- Load failures are not skipped one document at a time: any exception in the `try` falls back to an empty store (vectorstore.py:105-107).
- No note is stored: `guardar_nota` only validates and `listar_notas` is a constant.
- The `buscar_web` search is a network call. Only its configuration is modelled; the same goes for the OpenAI embeddings and chat models.
- Extractor.Extract: the model's reply and the formatted extractor prompt are inputs. The call to the model itself is a network call.
- Extractor.LowerChar: maps only ASCII capitals and KELVIN SIGN. Other characters Python lower-cases (such as `É`) are left as they are. Their lower-case forms are not ASCII, so they cannot turn a value into a sentinel.
- Extractor.Lower: lower-cases ASCII capitals and KELVIN SIGN only. Every other lower-case mapping yields a non-ASCII character, so it cannot change membership in the ASCII sentinel set; the contract states length preservation only. That holds for the model, not for `str.lower()`, which turns U+0130 into two characters.
- Paths.ParsePath: POSIX paths only. A leading `//`, `..` and symbolic links are not interpreted.
- `Path(__file__).resolve()` is the input `here`: resolving links and the working directory is not modelled.
- Config.MakeDirs: assumes `mkdir` succeeds. A permission error, or a file standing where a directory is wanted, is not modelled.
- `print` logging throughout.
- Concurrency around the module-level singletons: the code has no locks.
- ResearchTools.BuscarDocumentos models the path where `search_documents` raises nothing. The raising path is covered by `ResearchTools.FormatSearch` on a `Failure` outcome.
