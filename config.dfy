/** Path configuration of the research module: the project-root search,
    environment-or-default directories, the bootstrap of the documents
    directory, and the `get_config` singleton. The filesystem is a map from
    the paths that exist to what they are. */
module Config {
  import opened Wrappers
  import opened Paths

  datatype Node = Directory | File(text: string)

  type Entries = map<Path, Node>

  /** The filesystem that `mkdir` and `write_text` change. */
  class FileSystem {
    var entries: Entries

    constructor (entries: Entries)
      ensures this.entries == entries
    {
      this.entries := entries;
    }
  }

  const Marker := "pyproject.toml"
  const DocumentosVar := "RESEARCH_DOCUMENTOS_DIR"
  const DatosVar := "RESEARCH_DATOS_DIR"
  const ReadmeName := "README.txt"
  const ReadmeText :=
    "=== DOCUMENTOS DE INVESTIGACIÓN ===\n\n"
    + "Coloca aquí tus documentos de investigación en formato .txt o .pdf\n"
    + "Estos archivos serán indexados automáticamente por el sistema RAG.\n\n"
    + "Formatos soportados:\n"
    + "- .txt (texto plano)\n"
    + "- .pdf (archivos PDF)\n\n"
    + "Los documentos se procesarán la próxima vez que inicies el agente.\n"

  const ProjectRootKey := "project_root"
  const DocumentosKey := "documentos"
  const DatosKey := "datos"
  const ChromaDbKey := "chroma_db"
  const PathKeys: set<string> := {ProjectRootKey, DocumentosKey, DatosKey, ChromaDbKey}

  predicate HasMarker(fs: Entries, p: Path) {
    p.Join(Marker) in fs
  }

  /** `Path(__file__).parent.parent.parent.parent.parent`. */
  function Fallback(file: Path): (r: Path)
    ensures r.absolute == file.absolute
    ensures |file.parts| >= 5 ==> r.parts == file.parts[..|file.parts| - 5]
    ensures |file.parts| < 5 ==> r.parts == []
  {
    file.Parent().Parent().Parent().Parent().Parent()
  }

  /** `root` is what `_find_project_root` must return for the resolved
      path `here` of `__file__`: the first of `[here, *here.parents]`
      holding `pyproject.toml`, and the five-levels-up fallback when none does. */
  ghost predicate IsProjectRoot(fs: Entries, here: Path, file: Path, root: Path) {
    if exists i :: 0 <= i <= |here.parts| && HasMarker(fs, here.Ancestor(i)) then
      exists i :: 0 <= i <= |here.parts| && root == here.Ancestor(i) && HasMarker(fs, root)
        && forall j :: 0 <= j < i ==> !HasMarker(fs, here.Ancestor(j))
    else
      root == Fallback(file)
  }

  /** The specification picks at most one root. */
  lemma ProjectRootUnique(fs: Entries, here: Path, file: Path, r1: Path, r2: Path)
    requires IsProjectRoot(fs, here, file, r1) && IsProjectRoot(fs, here, file, r2)
    ensures r1 == r2
  {
  }

  /** `ResearchConfig._find_project_root`. `here` is `Path(__file__).resolve()`. */
  method FindProjectRoot(fs: Entries, here: Path, file: Path) returns (root: Path)
    ensures IsProjectRoot(fs, here, file, root)
  {
    var i := 0;
    while i <= |here.parts|
      invariant 0 <= i <= |here.parts| + 1
      invariant forall j :: 0 <= j < i ==> !HasMarker(fs, here.Ancestor(j))
    {
      var parent := here.Ancestor(i);
      if parent.Join(Marker) in fs {
        return parent;
      }
      i := i + 1;
    }
    root := Fallback(file);
  }

  /** `os.getenv(name)` turned into a path, or `default` when unset or empty. */
  function EnvPath(env: map<string, string>, name: string, default: Path): (p: Path)
    ensures name !in env || env[name] == "" ==> p == default
    ensures name in env && env[name] != "" ==> p == ParsePath(env[name])
  {
    if name in env && env[name] != "" then ParsePath(env[name]) else default
  }

  /** The path map `_initialize_paths` returns for project root `root`. */
  function PathMap(env: map<string, string>, root: Path): (m: map<string, Path>)
    ensures m.Keys == PathKeys
    ensures m[ProjectRootKey] == root
    ensures m[DocumentosKey] == EnvPath(env, DocumentosVar, root.Join("documentos"))
    ensures m[DatosKey] == EnvPath(env, DatosVar, root.Join("datos"))
    ensures m[ChromaDbKey] == m[DatosKey].Join("chroma_db")
  {
    var documentos := EnvPath(env, DocumentosVar, root.Join("documentos"));
    var datos := EnvPath(env, DatosVar, root.Join("datos"));
    map[ProjectRootKey := root, DocumentosKey := documentos, DatosKey := datos,
        ChromaDbKey := datos.Join("chroma_db")]
  }

  /** The paths `mkdir(parents=True)` makes sure exist: `d` and its ancestors. */
  function Prefixes(d: Path): set<Path> {
    set i | 0 <= i <= |d.parts| :: d.Ancestor(i)
  }

  /** `d.mkdir(parents=True, exist_ok=True)`: missing prefixes become
      directories, existing entries stay as they are. */
  function MakeDirs(fs: Entries, d: Path): (r: Entries)
    ensures r.Keys == fs.Keys + Prefixes(d)
    ensures forall p :: p in fs ==> r[p] == fs[p]
    ensures forall p :: p in r && p !in fs ==> r[p] == Directory
  {
    map p | p in fs.Keys + Prefixes(d) :: if p in fs then fs[p] else Directory
  }

  lemma MakeDirsNoop(fs: Entries, d: Path)
    requires Prefixes(d) <= fs.Keys
    ensures MakeDirs(fs, d) == fs
  {
    assert MakeDirs(fs, d).Keys == fs.Keys;
  }

  predicate IsTxtChild(p: Path, dir: Path) {
    && p.absolute == dir.absolute
    && |p.parts| == |dir.parts| + 1
    && p.parts[..|dir.parts|] == dir.parts
    && IsTxt(p.parts[|dir.parts|])
  }

  /** `list(dir.glob("*.txt"))` is not empty. */
  predicate HasTxtFile(fs: Entries, dir: Path) {
    exists p :: p in fs && IsTxtChild(p, dir)
  }

  /** When the placeholder is written: no `*.txt` entry in the documents
      directory and no `README.txt` there. */
  predicate NeedsPlaceholder(fs: Entries, documentos: Path) {
    !HasTxtFile(fs, documentos) && documentos.Join(ReadmeName) !in fs
  }

  function CreateDirs(fs: Entries, documentos: Path, datos: Path, chroma: Path): Entries {
    MakeDirs(MakeDirs(MakeDirs(fs, documentos), datos), chroma)
  }

  /** The filesystem after `_initialize_paths` has made the three directories
      and, if needed, written the placeholder. */
  function Bootstrap(fs: Entries, documentos: Path, datos: Path, chroma: Path): (r: Entries)
    ensures var dirs := CreateDirs(fs, documentos, datos, chroma);
      if NeedsPlaceholder(dirs, documentos)
      then r == dirs[documentos.Join(ReadmeName) := File(ReadmeText)]
      else r == dirs
  {
    var dirs := CreateDirs(fs, documentos, datos, chroma);
    if NeedsPlaceholder(dirs, documentos)
    then dirs[documentos.Join(ReadmeName) := File(ReadmeText)]
    else dirs
  }

  lemma ReadmeIsTxtChild(documentos: Path)
    ensures IsTxtChild(documentos.Join(ReadmeName), documentos)
  {
    var p := documentos.Join(ReadmeName);
    assert p.parts[..|documentos.parts|] == documentos.parts;
    assert p.parts[|documentos.parts|] == ReadmeName;
  }

  /** After a bootstrap the documents directory holds a `*.txt` entry, and
      every configured directory exists. */
  lemma BootstrapEstablishes(fs: Entries, documentos: Path, datos: Path, chroma: Path)
    ensures var r := Bootstrap(fs, documentos, datos, chroma);
      && HasTxtFile(r, documentos)
      && Prefixes(documentos) <= r.Keys && Prefixes(datos) <= r.Keys && Prefixes(chroma) <= r.Keys
      && fs.Keys <= r.Keys
  {
    var readme := documentos.Join(ReadmeName);
    ReadmeIsTxtChild(documentos);
    var dirs := CreateDirs(fs, documentos, datos, chroma);
    var r := Bootstrap(fs, documentos, datos, chroma);
    if NeedsPlaceholder(dirs, documentos) {
      assert readme in r;
    } else if readme in dirs {
      assert readme in r;
    }
  }

  /** Bootstrapping twice is bootstrapping once: no second placeholder. */
  lemma BootstrapIdempotent(fs: Entries, documentos: Path, datos: Path, chroma: Path)
    ensures var once := Bootstrap(fs, documentos, datos, chroma);
      Bootstrap(once, documentos, datos, chroma) == once
  {
    var once := Bootstrap(fs, documentos, datos, chroma);
    BootstrapEstablishes(fs, documentos, datos, chroma);
    MakeDirsNoop(once, documentos);
    MakeDirsNoop(once, datos);
    MakeDirsNoop(once, chroma);
    assert CreateDirs(once, documentos, datos, chroma) == once;
  }

  /** Existing entries are kept as they were, nothing but directories and
      the placeholder is added, and the placeholder holds its fixed text when
      `NeedsPlaceholder` holds after the directories are made. */
  lemma BootstrapWritesOnlyPlaceholder(fs: Entries, documentos: Path, datos: Path, chroma: Path)
    ensures var r := Bootstrap(fs, documentos, datos, chroma);
      var dirs := CreateDirs(fs, documentos, datos, chroma);
      && (forall p :: p in fs ==> p in r && r[p] == fs[p])
      && (forall p :: p in r && p !in fs ==> r[p] == Directory || p == documentos.Join(ReadmeName))
      && (documentos.Join(ReadmeName) in r && r[documentos.Join(ReadmeName)] == File(ReadmeText)
          <== NeedsPlaceholder(dirs, documentos))
  {
  }

  /** A `ResearchConfig` object after `__init__`. */
  datatype ResearchConfig = ResearchConfig(projectRoot: Path, paths: map<string, Path>) {

    ghost predicate Valid() {
      && paths.Keys == PathKeys && paths[ProjectRootKey] == projectRoot
      && paths[ChromaDbKey] == paths[DatosKey].Join("chroma_db")
    }

    /** The `documentos_dir` property. */
    function DocumentosDir(): Path
      requires DocumentosKey in paths
    {
      paths[DocumentosKey]
    }

    /** The `datos_dir` property. */
    function DatosDir(): Path
      requires DatosKey in paths
    {
      paths[DatosKey]
    }

    /** The `chroma_db_dir` property. */
    function ChromaDbDir(): Path
      requires ChromaDbKey in paths
    {
      paths[ChromaDbKey]
    }

    /** The `project_root` property. */
    function ProjectRoot(): Path
      requires ProjectRootKey in paths
    {
      paths[ProjectRootKey]
    }
  }

  /** What the properties of a config built for `env` and `root` return. */
  lemma ConfigProperties(env: map<string, string>, root: Path)
    ensures var c := ResearchConfig(root, PathMap(env, root));
      && c.Valid()
      && c.ProjectRoot() == root
      && (DocumentosVar !in env || env[DocumentosVar] == "" ==> c.DocumentosDir() == root.Join("documentos"))
      && (DocumentosVar in env && env[DocumentosVar] != "" ==> c.DocumentosDir() == ParsePath(env[DocumentosVar]))
      && (DatosVar !in env || env[DatosVar] == "" ==> c.DatosDir() == root.Join("datos"))
      && (DatosVar in env && env[DatosVar] != "" ==> c.DatosDir() == ParsePath(env[DatosVar]))
      && c.ChromaDbDir() == c.DatosDir().Join("chroma_db")
  {
  }

  /** `ResearchConfig._initialize_paths`. */
  method InitializePaths(fs: FileSystem, env: map<string, string>, root: Path) returns (paths: map<string, Path>)
    modifies fs
    ensures paths == PathMap(env, root)
    ensures fs.entries == Bootstrap(old(fs.entries), paths[DocumentosKey], paths[DatosKey], paths[ChromaDbKey])
  {
    var documentos := EnvPath(env, DocumentosVar, root.Join("documentos"));
    var datos := EnvPath(env, DatosVar, root.Join("datos"));
    var chroma := datos.Join("chroma_db");
    fs.entries := MakeDirs(fs.entries, documentos);
    fs.entries := MakeDirs(fs.entries, datos);
    fs.entries := MakeDirs(fs.entries, chroma);
    var readme := documentos.Join(ReadmeName);
    if !HasTxtFile(fs.entries, documentos) && readme !in fs.entries {
      fs.entries := fs.entries[readme := File(ReadmeText)];
    }
    paths := map[ProjectRootKey := root, DocumentosKey := documentos, DatosKey := datos, ChromaDbKey := chroma];
  }

  /** `ResearchConfig()`. */
  method NewResearchConfig(fs: FileSystem, env: map<string, string>, here: Path, file: Path)
    returns (c: ResearchConfig)
    modifies fs
    ensures c.Valid()
    ensures IsProjectRoot(old(fs.entries), here, file, c.projectRoot)
    ensures c.paths == PathMap(env, c.projectRoot)
    ensures fs.entries == Bootstrap(old(fs.entries), c.DocumentosDir(), c.DatosDir(), c.ChromaDbDir())
  {
    var root := FindProjectRoot(fs.entries, here, file);
    var paths := InitializePaths(fs, env, root);
    c := ResearchConfig(root, paths);
  }

  /** The `_config` global of the config module. */
  class ConfigRegistry {
    var config: Option<ResearchConfig>
    /** How many `ResearchConfig` objects have been built. */
    ghost var constructions: nat

    ghost predicate Valid()
      reads this
    {
      && constructions <= 1
      && (config.Some? <==> constructions == 1)
      && (config.Some? ==> config.value.Valid())
    }

    constructor ()
      ensures Valid() && config == None && constructions == 0
    {
      config := None;
      constructions := 0;
    }

    /** `get_config()`: builds the configuration on the first call only. */
    method GetConfig(fs: FileSystem, env: map<string, string>, here: Path, file: Path)
      returns (c: ResearchConfig)
      requires Valid()
      modifies this, fs
      ensures Valid()
      ensures config == Some(c)
      ensures old(config).Some? ==>
        c == old(config).value && fs.entries == old(fs.entries) && constructions == old(constructions)
      ensures old(config).None? ==>
        && IsProjectRoot(old(fs.entries), here, file, c.projectRoot)
        && c.paths == PathMap(env, c.projectRoot)
        && fs.entries == Bootstrap(old(fs.entries), c.DocumentosDir(), c.DatosDir(), c.ChromaDbDir())
    {
      if config.None? {
        var built := NewResearchConfig(fs, env, here, file);
        config := Some(built);
        constructions := constructions + 1;
      }
      c := config.value;
    }

    /** `get_documentos_dir()`. */
    method GetDocumentosDir(fs: FileSystem, env: map<string, string>, here: Path, file: Path)
      returns (p: Path)
      requires Valid()
      modifies this, fs
      ensures Valid() && config.Some? && p == config.value.DocumentosDir()
      ensures old(config).Some? ==> config == old(config) && fs.entries == old(fs.entries)
      ensures old(config).None? ==>
        && IsProjectRoot(old(fs.entries), here, file, config.value.projectRoot)
        && config.value.paths == PathMap(env, config.value.projectRoot)
        && fs.entries == Bootstrap(old(fs.entries), config.value.DocumentosDir(), config.value.DatosDir(),
                                   config.value.ChromaDbDir())
        && p == EnvPath(env, DocumentosVar, config.value.projectRoot.Join("documentos"))
    {
      var c := GetConfig(fs, env, here, file);
      p := c.DocumentosDir();
    }

    /** `get_datos_dir()`. */
    method GetDatosDir(fs: FileSystem, env: map<string, string>, here: Path, file: Path)
      returns (p: Path)
      requires Valid()
      modifies this, fs
      ensures Valid() && config.Some? && p == config.value.DatosDir()
      ensures old(config).Some? ==> config == old(config) && fs.entries == old(fs.entries)
      ensures old(config).None? ==>
        && IsProjectRoot(old(fs.entries), here, file, config.value.projectRoot)
        && config.value.paths == PathMap(env, config.value.projectRoot)
        && fs.entries == Bootstrap(old(fs.entries), config.value.DocumentosDir(), config.value.DatosDir(),
                                   config.value.ChromaDbDir())
        && p == EnvPath(env, DatosVar, config.value.projectRoot.Join("datos"))
    {
      var c := GetConfig(fs, env, here, file);
      p := c.DatosDir();
    }

    /** `get_chroma_db_dir()`: always `datos_dir / "chroma_db"`. */
    method GetChromaDbDir(fs: FileSystem, env: map<string, string>, here: Path, file: Path)
      returns (p: Path)
      requires Valid()
      modifies this, fs
      ensures Valid() && config.Some? && p == config.value.ChromaDbDir()
      ensures p == config.value.DatosDir().Join("chroma_db")
      ensures old(config).Some? ==> config == old(config) && fs.entries == old(fs.entries)
      ensures old(config).None? ==>
        && IsProjectRoot(old(fs.entries), here, file, config.value.projectRoot)
        && config.value.paths == PathMap(env, config.value.projectRoot)
        && fs.entries == Bootstrap(old(fs.entries), config.value.DocumentosDir(), config.value.DatosDir(),
                                   config.value.ChromaDbDir())
        && p == EnvPath(env, DatosVar, config.value.projectRoot.Join("datos")).Join("chroma_db")
    {
      var c := GetConfig(fs, env, here, file);
      p := c.ChromaDbDir();
    }
  }
}
