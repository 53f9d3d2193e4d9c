# rust-script location resolver, modelled in Dafny

This project models the platform layer of `rust-script` (`src/platform.rs`):
the policy that decides where the script cache, the generated Cargo
projects, the compiled binaries and the templates live; the timestamp of a
file with its fall-back to 0; and whether Cargo is told to force coloured
output.

Every outside read of the source is an explicit input:

- `Platform.Host` holds the environment (a map from variable name to value,
  each value already read as a path) and what `dirs_next::cache_dir()` and
  `dirs_next::data_local_dir()` report (`Option<Path>`).
- `Platform.Build` holds `cfg!(debug_assertions)` and the target family
  (`cfg(unix)` or `cfg(windows)`), which pick the `force_cargo_color` variant.
- `FileLastModified` takes the outcome of `File::metadata` and of
  `Metadata::modified` (an `Option` each; `None` is an I/O error).
- `ForceCargoColor` takes whether standard error is a terminal, the answer
  `atty::is(Stream::Stderr)` would give.

Files:

- `results.dfy` (module `Results`): `Option`, `MainError` (its message only)
  and `Result`.
- `paths.dfy` (module `Paths`): a path is a flag for "starts at the root" plus
  its components. `Join` appends one component, as `PathBuf::join` does for
  the relative single-name constants the resolver passes. `Parent` and
  `FileName` (`Path::parent`, `Path::file_name` for normal components) undo
  `Join`. `Render` gives a path's normalised Unix text. `Push` is the text
  rule of `PathBuf::push`: add a `/` unless the text is empty or already
  ends in one. `JoinMatchesPush` proves
  that the two views agree.
- `platform.dfy` (module `Platform`): the resolver functions themselves.
- `properties.dfy` (module `PlatformProperties`): precedence, dependence,
  layout, error propagation, the text of resolved paths, and the examples
  `/tmp/custom-cache` → `/tmp/custom-cache/binaries` and `/home/u/.cache` →
  `/home/u/.cache/rust-script`.

`consts.rs` is not part of this model. `PROGRAM_NAME` is taken to be
`rust-script`, the name the doc comments of `force_cargo_color` use; the
repository may define a different name there. Only
`PlatformCacheDirExample`, whose text ends in `/rust-script`, depends on
that value. Every other property needs only that the name is a single path
component (`IsSegment(ProgramName)`).

`join` adds no separator after an empty root or a root that already ends
in `/`, so a derived path's text is `Push(root text, name)`, not always the
root text followed by `/projects` (`Push`, `DerivedPathsText`,
`EmptyOverrideIsRelative`).

Both failure paths carry the message "Cannot get cache directory", even
when the missing directory is the local-data directory used for templates
(src/platform.rs:67). The model keeps that message
(`TemplatesAndCacheShareError`).

## Model

| member | source | states |
|---|---|---|
| `Platform.VarOs` | src/platform.rs:34 | `var_os` is `Some` exactly when the variable is set, and then carries its value |
| `Platform.CacheDir` | src/platform.rs:33-41 | Succeeds iff the override is set or the platform has a cache dir. A set override is returned verbatim, without validation. Otherwise the root is the child of the platform cache dir named after the program. A failure carries "Cannot get cache directory" |
| `Platform.GeneratedProjectsCachePath` | src/platform.rs:50-52 | Succeeds iff the cache root does. Its parent is the root and its last name is `projects`. A failure is the root's error unchanged |
| `Platform.BinaryCachePath` | src/platform.rs:54-56 | Succeeds iff the cache root does. Its parent is the root and its last name is `binaries`. A failure is the root's error unchanged |
| `Platform.TemplatesDir` | src/platform.rs:58-68 | In a debug build with the override set: exactly the override. Otherwise it succeeds iff a local-data dir exists, and the result is `<data>/<program>/templates`, checked through parent and file name. A failure carries "Cannot get cache directory" |
| `Platform.FileLastModified` | src/platform.rs:15-22 | Total. Gives 0 when the metadata query or the modified-time query fails, otherwise the modification time in milliseconds |
| `Platform.ForceCargoColor` | src/platform.rs:79-95 | True iff the target is Unix and stderr is a terminal; on Windows always false |
| `Paths.Join` | src/platform.rs:38 | `join` of a relative name: `Parent` gives back the original path and `FileName` the name. The result lies strictly under the original path and keeps well-formedness |
| `Paths.JoinMatchesPush` | src/platform.rs:66 | For a well-formed path and a proper name, the text of the joined path is what `PathBuf::push` makes of the path's text |
| `PlatformProperties.CacheOverrideWins` | src/platform.rs:34-35 | With the override set, any two hosts that agree on it get that exact value, whatever their platform cache dirs |
| `PlatformProperties.CacheDirInputs` | src/platform.rs:33-56 | The cache root and both derived paths depend only on the override and the platform cache dir |
| `PlatformProperties.CacheDirPlatformDefault` | src/platform.rs:36-38 | With no override, the root is the platform cache dir joined with the program name |
| `PlatformProperties.CacheDirUnavailable` | src/platform.rs:37-39 | With no override and no platform cache dir, the result is the error "Cannot get cache directory" |
| `PlatformProperties.DerivedPathsLayout` | src/platform.rs:50-56 | On success, the two paths are root + `projects` and root + `binaries`. Each starts with the root, neither equals the root, and they differ from each other |
| `PlatformProperties.DerivedPathsPropagateError` | src/platform.rs:50-56 | When the root fails, both derived paths fail with the same "Cannot get cache directory" error |
| `PlatformProperties.TemplatesDebugOverride` | src/platform.rs:59-62 | In a debug build a set template override is returned verbatim |
| `PlatformProperties.TemplatesReleaseIgnoresEnv` | src/platform.rs:58-68 | In a release build the templates dir does not depend on the environment at all, only on the local-data dir |
| `PlatformProperties.TemplatesDefault` | src/platform.rs:65-67 | Without an active override: `<data>.join(program).join("templates")`, or the error when there is no local-data dir |
| `PlatformProperties.TemplatesAndCacheShareError` | src/platform.rs:39-67 | A failed templates lookup and a failed cache-root lookup carry the same error |
| `PlatformProperties.DerivedPathsText` | src/platform.rs:50-56 | For a well-formed root, the text of each derived path is the root's text with `projects` or `binaries` pushed on |
| `PlatformProperties.TemplatesDefaultText` | src/platform.rs:65-66 | For a well-formed local-data dir, the text of the templates dir is that dir's text with the program name and `templates` pushed on |
| `PlatformProperties.OverrideBinariesExample` | src/platform.rs:34-55 | Override `/tmp/custom-cache` gives binaries path `/tmp/custom-cache/binaries` |
| `PlatformProperties.PlatformCacheDirExample` | src/platform.rs:36-38 | No override and cache dir `/home/u/.cache` give root `/home/u/.cache/rust-script` |
| `PlatformProperties.EmptyOverrideIsRelative` | src/platform.rs:34-51 | The override is not validated: an empty value makes the projects path the relative path `projects` |
| `PlatformProperties.UnreadableFileIsOldest` | src/platform.rs:15-22 | A file whose timestamp cannot be read reports a time no later than any other file's |
| `PlatformProperties.FileLastModifiedZero` | src/platform.rs:15-22 | The timestamp is 0 iff a query fails or the file was modified at the epoch itself |
| `PlatformProperties.ForceCargoColorWindowsIgnoresTty` | src/platform.rs:93-95 | On Windows the decision is the same whatever the terminal flag |

## Left out

- `current_time` (src/platform.rs:25-30): it only reads the wall clock, and the code promises nothing about two readings.
- The `#[cfg(test)]` `cache_dir` (src/platform.rs:43-48): a lazily created, process-wide temporary directory. That is concurrency and I/O. The model covers the non-test `cache_dir` only.
- The reads themselves: `std::env::var_os`, `dirs_next::cache_dir`, `dirs_next::data_local_dir`, `File::metadata`, `Metadata::modified` and `atty::is` are foreign or OS calls. Their results are inputs.
- Platform.FileLastModified: the modification time arrives already in whole milliseconds since the epoch. The `unwrap` panic on a time before the epoch and the `u128` result of `as_millis` (its truncation of sub-millisecond parts) are not modelled.
- Environment values are taken as paths already, as lists of components. The `OsString` to `PathBuf` conversion keeps the bytes unchanged, so an override such as `/tmp/c/` keeps its trailing separator. The model keeps only the components, and `Render` gives their normalised text. Rust compares paths by component, so results agree at the path level but not byte for byte.
- Paths.Parent, Paths.FileName, Paths.StartsWith: treat `.` and `..` as ordinary names. Rust's `file_name` answers `None` for a path ending in `..` and drops interior `.` components.
- Paths.Join: models `PathBuf::join` only for a relative single-name argument, the only kind this file passes. An absolute argument replacing the path appears only in the text rule `Push`. Windows separators and prefixes are not modelled. `Render` is the Unix text.
- The construction of `MainError` from a string: the model keeps only the message.
