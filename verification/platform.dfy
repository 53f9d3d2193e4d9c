/** The location resolver of `rust-script`: where the cache, the generated
    Cargo projects, the compiled binaries and the templates live, how old a
    file is, and whether Cargo is told to force coloured output.

    Everything the source reads from the outside world is an input here:
    the environment variables (`Host.env`), what `dirs_next` reports for
    the platform's cache and local-data directories, what the metadata
    query on a file returns, the build configuration (`debug_assertions`,
    Unix or Windows) and whether standard error is a terminal. */
module Platform {
  import opened Results
  import opened Paths

  /** `consts::PROGRAM_NAME`, the directory name the tool claims. */
  const ProgramName: string := "rust-script"

  const CachePathVar: string := "RUST_SCRIPT_CACHE_PATH"
  const DebugTemplatePathVar: string := "RUST_SCRIPT_DEBUG_TEMPLATE_PATH"

  const ProjectsDirName: string := "projects"
  const BinariesDirName: string := "binaries"
  const TemplatesDirName: string := "templates"

  /** The one message every failed directory lookup carries. */
  const CannotGetCacheDir: string := "Cannot get cache directory"

  /** The process environment (each value read as a path) and what the
      platform reports for its standard per-user directories. */
  datatype Host = Host(
    env: map<string, Path>,
    platformCacheDir: Option<Path>,     // dirs_next::cache_dir()
    platformDataLocalDir: Option<Path>  // dirs_next::data_local_dir()
  )

  /** The target family the tool was compiled for. */
  datatype Target = Unix | Windows

  /** Build-time configuration: `cfg!(debug_assertions)` and the target. */
  datatype Build = Build(debugAssertions: bool, target: Target)

  /** What `Metadata::modified` yields: the modification time in
      milliseconds since the Unix epoch, or `None` when it fails or is not
      supported. */
  datatype Metadata = Metadata(modifiedMillis: Option<nat>)

  /** `std::env::var_os(name)`. */
  function VarOs(env: map<string, Path>, name: string): (r: Option<Path>)
    ensures r.Some? <==> name in env
    ensures r.Some? ==> r.value == env[name]
  {
    if name in env then Some(env[name]) else None
  }

  /** Milliseconds since the epoch at which the file was last modified, or
      0 when either the metadata query (`metadata` is `None`) or the
      modification-time query fails. Never fails. */
  function FileLastModified(metadata: Option<Metadata>): (millis: nat)
    ensures metadata.None? ==> millis == 0
    ensures metadata.Some? && metadata.value.modifiedMillis.None? ==> millis == 0
    ensures metadata.Some? && metadata.value.modifiedMillis.Some? ==> millis == metadata.value.modifiedMillis.value
  {
    match metadata
    case None => 0
    case Some(md) =>
      match md.modifiedMillis
      case None => 0
      case Some(t) => t
  }

  /** The cache root: the `RUST_SCRIPT_CACHE_PATH` override verbatim when
      it is set (never validated), otherwise the platform cache directory
      with the program name appended, otherwise an error. */
  function CacheDir(host: Host): (r: Result<Path>)
    ensures r.Ok? <==> CachePathVar in host.env || host.platformCacheDir.Some?
    ensures CachePathVar in host.env ==> r == Ok(host.env[CachePathVar])
    ensures CachePathVar !in host.env && r.Ok? ==>
      Parent(r.value) == host.platformCacheDir && FileName(r.value) == Some(ProgramName)
    ensures r.Err? ==> r.error == MainError(CannotGetCacheDir)
  {
    match VarOs(host.env, CachePathVar)
    case Some(path) => Ok(path)
    case None =>
      match host.platformCacheDir
      case Some(dir) => Ok(Join(dir, ProgramName))
      case None => Err(MainError(CannotGetCacheDir))
  }

  /** Where generated Cargo projects are cached: `<cache root>/projects`. */
  function GeneratedProjectsCachePath(host: Host): (r: Result<Path>)
    ensures r.Ok? <==> CacheDir(host).Ok?
    ensures r.Ok? ==> Parent(r.value) == Some(CacheDir(host).value) && FileName(r.value) == Some(ProjectsDirName)
    ensures r.Err? ==> r.error == CacheDir(host).error
  {
    match CacheDir(host)
    case Ok(dir) => Ok(Join(dir, ProjectsDirName))
    case Err(e) => Err(e)
  }

  /** Where compiled binaries are cached: `<cache root>/binaries`. */
  function BinaryCachePath(host: Host): (r: Result<Path>)
    ensures r.Ok? <==> CacheDir(host).Ok?
    ensures r.Ok? ==> Parent(r.value) == Some(CacheDir(host).value) && FileName(r.value) == Some(BinariesDirName)
    ensures r.Err? ==> r.error == CacheDir(host).error
  {
    match CacheDir(host)
    case Ok(dir) => Ok(Join(dir, BinariesDirName))
    case Err(e) => Err(e)
  }

  /** The templates directory: in a debug build only, the
      `RUST_SCRIPT_DEBUG_TEMPLATE_PATH` override verbatim; otherwise
      `<local data dir>/<program name>/templates`, or an error (with the
      cache directory's message) when there is no local data directory. */
  function TemplatesDir(build: Build, host: Host): (r: Result<Path>)
    ensures build.debugAssertions && DebugTemplatePathVar in host.env ==>
      r == Ok(host.env[DebugTemplatePathVar])
    ensures !(build.debugAssertions && DebugTemplatePathVar in host.env) ==>
      (r.Ok? <==> host.platformDataLocalDir.Some?)
    ensures !(build.debugAssertions && DebugTemplatePathVar in host.env) && r.Ok? ==>
      FileName(r.value) == Some(TemplatesDirName) &&
      Parent(r.value).Some? &&
      FileName(Parent(r.value).value) == Some(ProgramName) &&
      Parent(Parent(r.value).value) == host.platformDataLocalDir
    ensures r.Err? ==> r.error == MainError(CannotGetCacheDir)
  {
    var debugOverride := if build.debugAssertions then VarOs(host.env, DebugTemplatePathVar) else None;
    match debugOverride
    case Some(path) => Ok(path)
    case None =>
      match host.platformDataLocalDir
      case Some(dir) => Ok(Join(Join(dir, ProgramName), TemplatesDirName))
      case None => Err(MainError(CannotGetCacheDir))
  }

  /** `force_cargo_color`, in the variant the build's target selects: on
      Unix, whether standard error is a terminal; on Windows never, since
      colour is communicated over another channel there. */
  function ForceCargoColor(build: Build, stderrIsTty: bool): (force: bool)
    ensures force <==> build.target == Unix && stderrIsTty
  {
    match build.target
    case Unix => stderrIsTty
    case Windows => false
  }
}
