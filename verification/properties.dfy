/** What the location resolver promises across calls and inputs: which
    input wins, what each result depends on, how the derived paths sit
    under the cache root, and what the resulting paths look like as text. */
module PlatformProperties {
  import opened Results
  import opened Paths
  import opened Platform

  /** The cache-path override is returned as it is, whatever the platform
      cache directory is, and whatever else the environment holds. */
  lemma CacheOverrideWins(h1: Host, h2: Host)
    requires CachePathVar in h1.env
    requires VarOs(h1.env, CachePathVar) == VarOs(h2.env, CachePathVar)
    ensures CacheDir(h1) == CacheDir(h2) == Ok(h1.env[CachePathVar])
  {
  }

  /** The cache root reads nothing but the override and the platform cache
      directory. */
  lemma CacheDirInputs(h1: Host, h2: Host)
    requires VarOs(h1.env, CachePathVar) == VarOs(h2.env, CachePathVar)
    requires h1.platformCacheDir == h2.platformCacheDir
    ensures CacheDir(h1) == CacheDir(h2)
    ensures GeneratedProjectsCachePath(h1) == GeneratedProjectsCachePath(h2)
    ensures BinaryCachePath(h1) == BinaryCachePath(h2)
  {
  }

  /** Without an override the cache root is `<platform cache dir>/<program name>`. */
  lemma CacheDirPlatformDefault(host: Host)
    requires CachePathVar !in host.env && host.platformCacheDir.Some?
    ensures CacheDir(host) == Ok(Join(host.platformCacheDir.value, ProgramName))
  {
  }

  /** Without an override and without a platform cache directory, the cache
      root fails with the fixed message. */
  lemma CacheDirUnavailable(host: Host)
    requires CachePathVar !in host.env && host.platformCacheDir.None?
    ensures CacheDir(host) == Err(MainError(CannotGetCacheDir))
  {
  }

  /** On success, the projects and binaries paths are the cache root plus
      one name each: both lie strictly under the root, and they differ. */
  lemma DerivedPathsLayout(host: Host)
    requires CacheDir(host).Ok?
    ensures GeneratedProjectsCachePath(host) == Ok(Join(CacheDir(host).value, ProjectsDirName))
    ensures BinaryCachePath(host) == Ok(Join(CacheDir(host).value, BinariesDirName))
    ensures StartsWith(GeneratedProjectsCachePath(host).value, CacheDir(host).value)
    ensures StartsWith(BinaryCachePath(host).value, CacheDir(host).value)
    ensures GeneratedProjectsCachePath(host).value != CacheDir(host).value
    ensures BinaryCachePath(host).value != CacheDir(host).value
    ensures GeneratedProjectsCachePath(host).value != BinaryCachePath(host).value
  {
  }

  /** A failed cache root makes both derived paths fail with that same error. */
  lemma DerivedPathsPropagateError(host: Host)
    requires CacheDir(host).Err?
    ensures GeneratedProjectsCachePath(host) == Err(MainError(CannotGetCacheDir))
    ensures BinaryCachePath(host) == Err(MainError(CannotGetCacheDir))
  {
  }

  /** In a debug build a set template override is returned as it is. */
  lemma TemplatesDebugOverride(build: Build, host: Host)
    requires build.debugAssertions && DebugTemplatePathVar in host.env
    ensures TemplatesDir(build, host) == Ok(host.env[DebugTemplatePathVar])
  {
  }

  /** In a release build the templates directory reads no environment
      variable at all: only the local data directory matters. */
  lemma TemplatesReleaseIgnoresEnv(build: Build, h1: Host, h2: Host)
    requires !build.debugAssertions
    requires h1.platformDataLocalDir == h2.platformDataLocalDir
    ensures TemplatesDir(build, h1) == TemplatesDir(build, h2)
  {
  }

  /** Without an active override the templates directory is
      `<local data dir>/<program name>/templates`, or the cache directory's
      error when there is no local data directory. */
  lemma TemplatesDefault(build: Build, host: Host)
    requires !(build.debugAssertions && DebugTemplatePathVar in host.env)
    ensures host.platformDataLocalDir.Some? ==>
      TemplatesDir(build, host) == Ok(Join(Join(host.platformDataLocalDir.value, ProgramName), TemplatesDirName))
    ensures host.platformDataLocalDir.None? ==>
      TemplatesDir(build, host) == Err(MainError(CannotGetCacheDir))
  {
  }

  /** The templates lookup fails with exactly the cache root's error. */
  lemma TemplatesAndCacheShareError(build: Build, h1: Host, h2: Host)
    requires TemplatesDir(build, h1).Err? && CacheDir(h2).Err?
    ensures TemplatesDir(build, h1).error == CacheDir(h2).error
  {
  }

  /** The text of the derived paths is the cache root's text with
      `projects` and `binaries` pushed onto it, for a well-formed root. */
  lemma DerivedPathsText(host: Host)
    requires CacheDir(host).Ok? && WellFormed(CacheDir(host).value)
    ensures Render(GeneratedProjectsCachePath(host).value) == Push(Render(CacheDir(host).value), ProjectsDirName)
    ensures Render(BinaryCachePath(host).value) == Push(Render(CacheDir(host).value), BinariesDirName)
  {
    DerivedPathsLayout(host);
    JoinMatchesPush(CacheDir(host).value, ProjectsDirName);
    JoinMatchesPush(CacheDir(host).value, BinariesDirName);
  }

  /** The text of the default templates directory: the local data
      directory's text with the program name and `templates` pushed on. */
  lemma TemplatesDefaultText(build: Build, host: Host)
    requires !(build.debugAssertions && DebugTemplatePathVar in host.env)
    requires host.platformDataLocalDir.Some? && WellFormed(host.platformDataLocalDir.value)
    ensures Render(TemplatesDir(build, host).value) ==
      Push(Push(Render(host.platformDataLocalDir.value), ProgramName), TemplatesDirName)
  {
    var d := host.platformDataLocalDir.value;
    var mid := Join(d, ProgramName);
    assert IsSegment(ProgramName) && IsSegment(TemplatesDirName);
    assert Render(mid) == Push(Render(d), ProgramName) by {
      JoinMatchesPush(d, ProgramName);
    }
    assert Render(Join(mid, TemplatesDirName)) == Push(Render(mid), TemplatesDirName) by {
      JoinMatchesPush(mid, TemplatesDirName);
    }
    TemplatesDefault(build, host);
  }

  /** With the override set to `/tmp/custom-cache`, the binaries path is
      `/tmp/custom-cache/binaries`. */
  lemma OverrideBinariesExample(host: Host)
    requires VarOs(host.env, CachePathVar) == Some(Path(true, ["tmp", "custom-cache"]))
    ensures Render(BinaryCachePath(host).value) == "/tmp/custom-cache/binaries"
  {
    var path := Path(true, ["tmp", "custom-cache", BinariesDirName]);
    assert Render(path) == "/tmp/custom-cache/binaries" by {
      RenderAbsoluteThree("tmp", "custom-cache", BinariesDirName);
    }
    var root := Path(true, ["tmp", "custom-cache"]);
    assert CacheDir(host) == Ok(root);
    assert Join(root, BinariesDirName) == path by {
      assert root.segments + [BinariesDirName] == path.segments;
    }
  }

  /** With no override and the platform cache directory `/home/u/.cache`,
      the cache root is `/home/u/.cache/rust-script`. */
  lemma PlatformCacheDirExample(host: Host)
    requires CachePathVar !in host.env
    requires host.platformCacheDir == Some(Path(true, ["home", "u", ".cache"]))
    ensures Render(CacheDir(host).value) == "/home/u/.cache/rust-script"
  {
    var root := Path(true, ["home", "u", ".cache", ProgramName]);
    assert Render(root) == "/home/u/.cache/rust-script" by {
      RenderAbsoluteFour("home", "u", ".cache", ProgramName);
      assert "/" + "home" + "/" + "u" + "/" + ".cache" == "/home/u/.cache";
    }
    CacheDirPlatformDefault(host);
    assert ["home", "u", ".cache"] + [ProgramName] == root.segments;
  }

  /** The override is not validated: an empty value is accepted, and the
      projects path then is the relative path `projects`. */
  lemma EmptyOverrideIsRelative(host: Host)
    requires VarOs(host.env, CachePathVar) == Some(Path(false, []))
    ensures Render(GeneratedProjectsCachePath(host).value) == "projects"
  {
    DerivedPathsText(host);
  }

  /** A file whose timestamp cannot be read counts as no newer than any
      other file. */
  lemma UnreadableFileIsOldest(failed: Option<Metadata>, other: Option<Metadata>)
    requires failed.None? || failed.value.modifiedMillis.None?
    ensures FileLastModified(failed) <= FileLastModified(other)
  {
  }

  /** The timestamp is 0 exactly when a query fails or the file was last
      modified at the epoch itself. */
  lemma FileLastModifiedZero(metadata: Option<Metadata>)
    ensures FileLastModified(metadata) == 0 <==>
      metadata.None? || metadata.value.modifiedMillis.None? || metadata.value.modifiedMillis.value == 0
  {
  }

  /** On Windows the colour decision does not depend on whether standard
      error is a terminal. */
  lemma ForceCargoColorWindowsIgnoresTty(build: Build, tty1: bool, tty2: bool)
    requires build.target == Windows
    ensures ForceCargoColor(build, tty1) == ForceCargoColor(build, tty2)
  {
  }
}
