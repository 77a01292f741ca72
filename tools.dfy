/** The research agent's tools: formatting of local search results, note
    validation, the note-listing placeholder and the tool list. */
module ResearchTools {
  import opened Wrappers
  import opened Paths
  import opened VectorStore

  const NoResultsMessage := "No se encontró información " + "relevante en los documentos locales."
  const SearchErrorPrefix := "Error al buscar en documentos: "
  const UnknownSource := "desconocida"
  const PassageSeparator := "\n\n"
  const PreviewLength := 200
  const Ellipsis := "..."
  /** `k` that `buscar_documentos` asks for. */
  const ToolK := 4

  /** One entry of the artefact list. */
  datatype Artifact = Artifact(fuente: string, preview: string)

  /** `doc.metadata.get("source", "desconocida")`. */
  function Source(d: Document): (r: string)
    ensures "source" in d.metadata ==> r == d.metadata["source"]
    ensures "source" !in d.metadata ==> r == UnknownSource
  {
    if "source" in d.metadata then d.metadata["source"] else UnknownSource
  }

  function SourceHeader(source: string): string {
    "[Fuente: " + source + "]\n"
  }

  /** The text shown to the model for one document. */
  function Passage(d: Document): (r: string)
    ensures r == SourceHeader(Source(d)) + d.pageContent
  {
    SourceHeader(Source(d)) + d.pageContent
  }

  /** `sep.join(parts)`. */
  function Join(sep: string, parts: seq<string>): string {
    if parts == [] then ""
    else if |parts| == 1 then parts[0]
    else parts[0] + sep + Join(sep, parts[1..])
  }

  /** Where `parts[i]` starts in `Join(sep, parts)`. */
  function JoinOffset(sep: string, parts: seq<string>, i: nat): nat
    requires i <= |parts|
  {
    if i == 0 then 0 else |parts[0]| + |sep| + JoinOffset(sep, parts[1..], i - 1)
  }

  /** `Join` lays the parts out in order: part `i` starts at its offset ... */
  lemma {:induction false} JoinPartAt(sep: string, parts: seq<string>, i: nat)
    requires i < |parts|
    ensures JoinOffset(sep, parts, i) + |parts[i]| <= |Join(sep, parts)|
    ensures Join(sep, parts)[JoinOffset(sep, parts, i)..JoinOffset(sep, parts, i) + |parts[i]|] == parts[i]
  {
    if |parts| == 1 {
      assert Join(sep, parts)[0..|parts[0]|] == parts[0];
    } else {
      var pre := parts[0] + sep;
      var rest := Join(sep, parts[1..]);
      assert Join(sep, parts) == pre + rest;
      if i == 0 {
        assert (pre + rest)[..|parts[0]|] == parts[0];
      } else {
        JoinPartAt(sep, parts[1..], i - 1);
        assert parts[1..][i - 1] == parts[i];
        var o := JoinOffset(sep, parts[1..], i - 1);
        SliceShift(pre, rest, o, o + |parts[i]|);
      }
    }
  }

  /** ... followed by `sep` unless it is the last part ... */
  lemma {:induction false} JoinSepAt(sep: string, parts: seq<string>, i: nat)
    requires i + 1 < |parts|
    ensures JoinOffset(sep, parts, i) + |parts[i]| + |sep| <= |Join(sep, parts)|
    ensures var end := JoinOffset(sep, parts, i) + |parts[i]|;
      Join(sep, parts)[end..end + |sep|] == sep
  {
    var pre := parts[0] + sep;
    var rest := Join(sep, parts[1..]);
    assert Join(sep, parts) == pre + rest;
    if i == 0 {
      SliceShift(parts[0], sep + rest, 0, |sep|);
      assert pre + rest == parts[0] + (sep + rest);
    } else {
      JoinSepAt(sep, parts[1..], i - 1);
      assert parts[1..][i - 1] == parts[i];
      var e := JoinOffset(sep, parts[1..], i - 1) + |parts[i]|;
      SliceShift(pre, rest, e, e + |sep|);
    }
  }

  /** ... and the last part ends the string. */
  lemma {:induction false} JoinLastEnds(sep: string, parts: seq<string>)
    requires parts != []
    ensures JoinOffset(sep, parts, |parts| - 1) + |parts[|parts| - 1]| == |Join(sep, parts)|
  {
    if |parts| > 1 {
      JoinLastEnds(sep, parts[1..]);
      assert parts[1..][|parts| - 2] == parts[|parts| - 1];
    }
  }

  lemma SliceShift(pre: string, rest: string, a: nat, b: nat)
    requires a <= b <= |rest|
    ensures (pre + rest)[|pre| + a..|pre| + b] == rest[a..b]
  {
    assert (pre + rest)[|pre|..] == rest;
    assert (pre + rest)[|pre| + a..|pre| + b] == (pre + rest)[|pre|..][a..b];
  }

  /** The preview of one document's text. */
  function Preview(content: string): (r: string)
    ensures |content| <= PreviewLength ==> r == content
    ensures |content| > PreviewLength ==> |r| == PreviewLength + |Ellipsis|
    ensures |r| <= PreviewLength + |Ellipsis|
    ensures |content| > PreviewLength ==>
      r[..PreviewLength] == content[..PreviewLength] && r[PreviewLength..] == Ellipsis
  {
    if |content| > PreviewLength then content[..PreviewLength] + Ellipsis else content
  }

  function Passages(docs: seq<Document>): (r: seq<string>)
    ensures |r| == |docs|
    ensures forall i :: 0 <= i < |docs| ==> r[i] == Passage(docs[i])
  {
    seq(|docs|, i requires 0 <= i < |docs| => Passage(docs[i]))
  }

  /** The artefact list: one entry per document, in order. */
  function Artifacts(docs: seq<Document>): (r: seq<Artifact>)
    ensures |r| == |docs|
    ensures forall i :: 0 <= i < |docs| ==> r[i] == Artifact(Source(docs[i]), Preview(docs[i].pageContent))
  {
    seq(|docs|, i requires 0 <= i < |docs| => Artifact(Source(docs[i]), Preview(docs[i].pageContent)))
  }

  /** The body of `buscar_documentos` given what `search_documents` returned
      or raised: the content for the model and the artefact list. */
  function FormatSearch(outcome: Result<seq<Document>, string>): (r: (string, seq<Artifact>))
    ensures outcome.Failure? ==> r == (SearchErrorPrefix + outcome.error, [])
    ensures outcome == Success([]) ==> r == (NoResultsMessage, [])
    ensures outcome.Success? && outcome.value != [] ==>
      r.0 == Join(PassageSeparator, Passages(outcome.value)) && r.1 == Artifacts(outcome.value)
  {
    match outcome
    case Failure(message) => (SearchErrorPrefix + message, [])
    case Success(docs) =>
      if docs == [] then (NoResultsMessage, [])
      else (Join(PassageSeparator, Passages(docs)), Artifacts(docs))
  }

  /** Part `i` of `Join(sep, parts)` reads `header` then `body` from its
      offset on, and is followed by `sep` unless it is the last part, in
      which case it ends the string. */
  predicate PartLaidOut(sep: string, parts: seq<string>, i: nat, header: string, body: string)
    requires i < |parts|
  {
    var content := Join(sep, parts);
    var start := JoinOffset(sep, parts, i);
    var end := start + |header| + |body|;
    && end <= |content|
    && content[start..start + |header|] == header
    && content[start + |header|..end] == body
    && (i + 1 < |parts| ==> end + |sep| <= |content| && content[end..end + |sep|] == sep)
    && (i + 1 == |parts| ==> end == |content|)
  }

  /** Document `i`'s passage sits in the joined content at its offset,
      headed by its source, followed by its text and, unless it is the
      last, by a blank line. */
  lemma SearchContentLayout(docs: seq<Document>, i: nat)
    requires i < |docs|
    ensures |Passages(docs)| == |docs|
    ensures PartLaidOut(PassageSeparator, Passages(docs), i, SourceHeader(Source(docs[i])), docs[i].pageContent)
  {
    var parts := Passages(docs);
    JoinedPartLayout(PassageSeparator, parts, i, SourceHeader(Source(docs[i])), docs[i].pageContent);
  }

  /** The layout of one part of a join that is itself `header + body`. */
  lemma JoinedPartLayout(sep: string, parts: seq<string>, i: nat, header: string, body: string)
    requires i < |parts| && parts[i] == header + body
    ensures PartLaidOut(sep, parts, i, header, body)
  {
    JoinPartAt(sep, parts, i);
    SplitPassage(Join(sep, parts), JoinOffset(sep, parts, i), header, body);
    if i + 1 < |parts| {
      JoinSepAt(sep, parts, i);
    } else {
      JoinLastEnds(sep, parts);
    }
  }

  lemma SplitPassage(content: string, start: nat, header: string, body: string)
    requires start + |header| + |body| <= |content|
    requires content[start..start + |header| + |body|] == header + body
    ensures content[start..start + |header|] == header
    ensures content[start + |header|..start + |header| + |body|] == body
  {
    var whole := content[start..start + |header| + |body|];
    assert content[start..start + |header|] == whole[..|header|];
    assert content[start + |header|..start + |header| + |body|] == whole[|header|..];
  }

  /** How a caller can tell the three outcomes apart from the content alone. */
  datatype SearchKind = Found | NothingFound | SearchFailed

  function KindOf(content: string): SearchKind {
    if |content| > 0 && content[0] == '[' then Found
    else if content == NoResultsMessage then NothingFound
    else SearchFailed
  }

  function KindOfOutcome(outcome: Result<seq<Document>, string>): SearchKind {
    match outcome
    case Failure(_) => SearchFailed
    case Success(docs) => if docs == [] then NothingFound else Found
  }

  /** "Found nothing", "failed" and "found" never produce the same content. */
  lemma OutcomeKindRecoverable(outcome: Result<seq<Document>, string>)
    ensures KindOf(FormatSearch(outcome).0) == KindOfOutcome(outcome)
  {
    match outcome
    case Failure(message) =>
      var c := SearchErrorPrefix + message;
      assert c[0] == 'E';
      assert c != NoResultsMessage by { assert NoResultsMessage[0] == 'N'; }
    case Success(docs) =>
      if docs != [] {
        JoinPartAt(PassageSeparator, Passages(docs), 0);
        var c := FormatSearch(outcome).0;
        assert c[..|Passage(docs[0])|] == Passage(docs[0]);
        assert Passage(docs[0])[0] == '[';
      }
  }

  /** `buscar_documentos(consulta)` over the shared index when the search
      raises nothing: it asks for `k = 4`, which stays on the retriever. */
  method BuscarDocumentos(index: ResearchIndex, consulta: string, chromaDir: Path,
                          ingest: Ingest, split: Splitter, mmr: Mmr)
    returns (content: string, artifacts: seq<Artifact>)
    requires index.Valid()
    modifies index, index.retriever
    ensures index.Valid()
    ensures index.retriever != null && index.retriever.k == ToolK
    ensures (content, artifacts) ==
      FormatSearch(Success(mmr(index.retriever.store.chunks, consulta, ToolK, DefaultFetchK)))
  {
    var docs := index.SearchDocuments(consulta, ToolK, chromaDir, ingest, split, mmr);
    var formatted := FormatSearch(Success(docs));
    content, artifacts := formatted.0, formatted.1;
  }

  const MaxTitleLength := 100
  const NoteRequiredError := ErrorTag + "Tanto el título como el contenido son requeridos."
  const TitleTooLongError := ErrorTag + "El título es demasiado largo (máximo 100 caracteres)."
  const SavedPrefix := "✓ Nota '"
  const SavedSuffix := "' guardada correctamente."
  const ErrorTag := "Error: "

  function SavedMessage(titulo: string): string {
    SavedPrefix + titulo + SavedSuffix
  }

  /** `guardar_nota(titulo, contenido)`: validation only; nothing is stored. */
  function GuardarNota(titulo: string, contenido: string): (r: string)
    ensures titulo == "" || contenido == "" ==> r == NoteRequiredError
    ensures titulo != "" && contenido != "" && |titulo| > MaxTitleLength ==> r == TitleTooLongError
    ensures titulo != "" && contenido != "" && |titulo| <= MaxTitleLength ==> r == SavedMessage(titulo)
  {
    if titulo == "" || contenido == "" then NoteRequiredError
    else if |titulo| > MaxTitleLength then TitleTooLongError
    else SavedMessage(titulo)
  }

  predicate IsError(reply: string) {
    |reply| >= |ErrorTag| && reply[..|ErrorTag|] == ErrorTag
  }

  /** The title a success reply confirms, if `reply` is one. */
  function SavedTitle(reply: string): Option<string> {
    var p, q := |SavedPrefix|, |SavedSuffix|;
    if |reply| >= p + q && reply[..p] == SavedPrefix && reply[|reply| - q..] == SavedSuffix
    then Some(reply[p..|reply| - q])
    else None
  }

  /** A reply is an error exactly when a field is empty or the title is
      over 100 characters; otherwise it confirms exactly the given title. */
  lemma GuardarNotaOutcome(titulo: string, contenido: string)
    ensures IsError(GuardarNota(titulo, contenido)) <==>
      titulo == "" || contenido == "" || |titulo| > MaxTitleLength
    ensures !IsError(GuardarNota(titulo, contenido)) ==>
      SavedTitle(GuardarNota(titulo, contenido)) == Some(titulo)
  {
    var r := GuardarNota(titulo, contenido);
    if !(titulo == "" || contenido == "" || |titulo| > MaxTitleLength) {
      assert r[0] == '✓';
      var p, q := |SavedPrefix|, |SavedSuffix|;
      assert r[..p] == SavedPrefix;
      assert r[|r| - q..] == SavedSuffix;
      assert r[p..|r| - q] == titulo;
    }
  }

  /** The tools the research agent gets, with the web search configuration. */
  datatype Tool =
    | DocumentSearch
    | WebSearch(maxResults: int, searchDepth: string, includeAnswer: bool, includeRawContent: bool)
    | SaveNote
    | ListNotes

  function ToolName(t: Tool): string {
    match t
    case DocumentSearch => "buscar_documentos"
    case WebSearch(_, _, _, _) => "buscar_web"
    case SaveNote => "guardar_nota"
    case ListNotes => "listar_notas"
  }

  /** `listar_notas()`: a fixed placeholder that points to the save tool. */
  function ListarNotas(): (r: string)
    ensures |r| >= 45 && r[33..45] == ToolName(SaveNote)
  {
    "No hay notas guardadas aún. Usa '" + "guardar_nota" + "' para crear una."
  }

  /** `get_research_tools()`. */
  function GetResearchTools(): (tools: seq<Tool>)
    ensures |tools| == 4
    ensures forall i, j :: 0 <= i < j < |tools| ==> ToolName(tools[i]) != ToolName(tools[j])
    ensures DocumentSearch in tools && SaveNote in tools && ListNotes in tools
    ensures WebSearch(5, "basic", true, false) in tools
  {
    [DocumentSearch, WebSearch(5, "basic", true, false), SaveNote, ListNotes]
  }
}
