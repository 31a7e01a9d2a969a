# fp-node-manager, modelled in Dafny

fp-node-manager is a desktop tool for opening and running local Node.js projects. A Tauri (Rust) back end talks to the machine. A Vue front end holds the application state in pinia stores. This project models five parts of it and proves what they promise:

- **Node version strings** (`src/utils/nvm.ts`), module `Nvm`. `NormalizeNvmVersion` trims, strips one `v`/`V` and accepts one to three dot-separated digit groups. `FindInstalledNodeVersion` picks the first installed version that refers to a target, respecting group boundaries. The regular expression `/^\d+(\.\d+){0,2}$/` is modelled as a small matcher, `MatchesVersionPattern`, and proved equal to a plain definition of a version (`PatternIsVersion`).
- **The project store** (`src/stores/project.ts`), module `ProjectStore`. It is a class with the store's fields:
  - the project list, run flags, logs and active selection;
  - the per-run log buffer, plus a flag standing for the pending animation-frame flush.

  Each handler and action is a method proved against functions on values. `FlushLogs` visits the buffered ids in any order, which models JavaScript's `for…in` order, and is proved equal to `Flushed`/`Drained`. The invariant `Valid` says a buffered line always has a flush pending.
- **Terminal discovery** (`src-tauri/src/system.rs`), module `Terminals`. The machine is an `Env` value: existing paths, startable programs, names the command locator finds, and environment variables. Each `#[cfg]` block of `detect_available_terminals` is a method that pushes its entries, and each is proved to report `Catalogue(os)` in order with the probe outcomes.
- **The context-menu integration** (`src-tauri/src/system.rs`), modules `ContextMenu` and `ContextMenuProperties`.
  - On Windows it is a registry (`Registry` class, key path to named values; `locked` keys refuse creation and deletion, and a key with an existing locked key at or below it cannot be deleted; a locked key that does not exist only refuses creation).
  - On Linux it is a file system (`FileSystem` class, directories and files with modes; `denied` paths refuse creation and removal).
  - Every other OS refuses.

  `SetOn`/`CheckOn` dispatch on the OS family. The lemmas cover: enable then check, disable then check, idempotence, the exact registry values, and the exact seven-line desktop file.
- **The project scan** (`src-tauri/src/project.rs`), module `ProjectScan`. `ScanProject` yields an error or a descriptor: script names sorted, a fallback name from the path, and the package manager chosen by lock-file precedence. `ReadDir` filters directory entries.
- **The settings store** (`src/stores/settings.ts`), module `SettingsStore`. It covers:
  - the defaults;
  - loading stored JSON, with the legacy `themeColor` migration and the spread over the defaults;
  - the dark-mode rule and the locale application;
  - the cached terminal list.

Shared modules: `Wrappers` (`Option`, `Result`), `Platform` (OS family, environment, the executable path) and `Text` (split/join, code-point order, insertion sort for Rust's `sort`).

The inputs stand in for I/O:

- the machine state, given as `Env`, `Keys` and `Fs` values;
- the executable path lookup, given as an `ExePath`;
- the outcome of reading and parsing `package.json`, given as a `ManifestRead`;
- the node store's version list;
- whether `api.runProjectCommand` fails;
- each `api.scanProject` reply;
- `localStorage` text, with `JSON.parse`'s result;
- the system's colour-scheme preference.

Four behaviours of the code are easy to misread; the model follows the code as written:

- **Windows registration is not all-or-nothing.** A failure on the second key leaves the first one written (`RegistryPartialEnable`).
- **Windows disable needs the executable path.** The path is resolved before the enable/disable branch, so disable fails without it (`RegistryNeedsExePath`).
- **Windows disable ignores deletion errors.** An existing locked key, and every key above it, stays in place while disable reports success, so "disable then check is false" holds unless an existing key of the folder tree is locked; then check reports what it reported before (`DisableThenCheck`, `LockedCommandKeepsMenu`, `HalfWrittenMenuRemoved`).
- **Linux reads the executable path later.** The Linux enable resolves the path only after creating the applications directory, so that directory can be left behind by an enable that then fails. In the source a desktop file can also be left behind, empty or without mode 0755, when writing it or setting its mode fails after it was created; the model leaves out those failures.

## Model

| member | source | states |
|---|---|---|
| Nvm.NormalizeNvmVersion | src/utils/nvm.ts:1-12 | the result is non-null exactly when the input is present and, trimmed and with one leading v/V stripped, is a version; it is then that string, beginning with a digit |
| Nvm.PatternIsVersion | src/utils/nvm.ts:7 | the regular expression accepts exactly one to three non-empty digit groups separated by single dots |
| Nvm.VersionEnds | src/utils/nvm.ts:6-11 | a version begins and ends with a digit, so a normalised result has no white space and no leading v |
| Nvm.TrimPadded | src/utils/nvm.ts:3 | trimming removes exactly the white space around a core that starts and ends with something else |
| Nvm.PaddedVersionNormalizes | src/utils/nvm.ts:3-6 | white space around a version and one optional leading v or V are dropped: " v18.2 ", "V18.2" and "18.2" all give "18.2" |
| Nvm.NormalizeIdempotent | src/utils/nvm.ts:1-12 | normalising a normalised version returns it unchanged |
| Nvm.RejectsDoubleV | src/utils/nvm.ts:6-9 | "vv18" gives null: only one v is stripped |
| Nvm.RejectsNonDigitGroup | src/utils/nvm.ts:7-9 | "18.x" gives null |
| Nvm.RejectsFourGroups | src/utils/nvm.ts:7-9 | "1.2.3.4" gives null |
| Nvm.RejectsTrailingDot | src/utils/nvm.ts:7-9 | "18." gives null |
| Nvm.FindInstalledNodeVersion | src/utils/nvm.ts:14-19 | undefined exactly when no element matches; otherwise a list element, returned as listed, that matches |
| Nvm.ItemMatchesAtBoundary | src/utils/nvm.ts:16-17 | an item matches exactly when, without its v, it is the target or the target followed by a dot and more |
| Nvm.BoundaryExample | src/utils/nvm.ts:17 | target "18" selects "v18.17.0" and passes over an earlier "v180.1.0" |
| ProjectStore.KeepNewest | src/stores/project.ts:27-29 | the newest `n` lines, all of them when there are at most `n` |
| ProjectStore.Drained | src/stores/project.ts:31 | after a flush every buffered id remains, with an empty buffer |
| ProjectStore.FlushAppends | src/stores/project.ts:19-35 | an id with buffered lines gets its old log followed by those lines in arrival order, cut to the newest 2000; every other log is unchanged |
| ProjectStore.FlushEndsWithNewest | src/stores/project.ts:24-29 | a flushed log has at most 2000 lines and ends with the newest buffered line |
| ProjectStore.FlushTwice | src/stores/project.ts:19-35 | a second flush right after the first changes no log |
| ProjectStore.FlushStepLines | src/stores/project.ts:21-32 | one pass of the loop for an id with lines moves exactly that id's lines and empties its buffer |
| ProjectStore.FlushStepEmpty | src/stores/project.ts:21 | one pass for an id whose buffer is empty changes nothing |
| ProjectStore.FlushStepBuffer | src/stores/project.ts:31 | one pass empties exactly that id's buffer |
| ProjectStore.FlushAll | src/stores/project.ts:20-33 | visiting no id changes nothing, and visiting every buffered id, in any order, is the whole flush |
| ProjectStore.FlushAllLogs | src/stores/project.ts:20-33 | the logs after visiting every buffered id are the flushed logs |
| ProjectStore.FlushNone | src/stores/project.ts:20 | before any id is visited the logs and buffer are as they were |
| ProjectStore.Store.constructor | src/stores/project.ts:8-17 | the store starts with no projects, flags, logs, selection or buffered lines, and no flush pending |
| ProjectStore.Store.FlushOne | src/stores/project.ts:21-32 | the body of the flush loop advances the partly flushed state by one id and touches nothing else |
| ProjectStore.Store.FlushLogs | src/stores/project.ts:19-35 | the logs become `Flushed` of the old logs and buffer; the buffer is drained; no flush is pending; nothing else changes |
| ProjectStore.Store.OnProjectOutput | src/stores/project.ts:38-47 | the line is appended to that id's buffer; a flush is scheduled exactly when none was pending; afterwards one is pending |
| ProjectStore.Store.OnProjectExit | src/stores/project.ts:49-59 | the run is marked not running; its log gains the buffered lines, uncut, then "[Process exited]"; its buffer is emptied when it held lines |
| ProjectStore.IndexOf | src/stores/project.ts:66 | the first position holding that id, or none exactly when no project has it |
| ProjectStore.Updated | src/stores/project.ts:65-70 | the length is kept; only the first project with the id is replaced; no match leaves the list |
| ProjectStore.Store.AddProject | src/stores/project.ts:61-63 | the project is appended and nothing else changes |
| ProjectStore.Store.UpdateProject | src/stores/project.ts:65-70 | the list becomes `Updated`; nothing else changes |
| ProjectStore.WithoutAppend | src/stores/project.ts:73 | the filter keeps order: filtering a concatenation filters each part |
| ProjectStore.WithoutKeeps | src/stores/project.ts:73 | a project stays exactly when it was listed and its id differs from the removed one |
| ProjectStore.WithoutAbsent | src/stores/project.ts:73 | removing an absent id keeps the list |
| ProjectStore.Store.RemoveProject | src/stores/project.ts:72-75 | the list is filtered; the selection is cleared exactly when it was the removed id |
| ProjectStore.FindVersion | src/stores/project.ts:94-99 | a listed version answering the query, or none exactly when none answers |
| ProjectStore.FirstFound | src/stores/project.ts:94-99 | the find returns the first answering version in list order |
| ProjectStore.ResolveNodePath | src/stores/project.ts:89-104 | the path is never "System Default"; it is "" or the path of some listed version |
| ProjectStore.ExactVersionWins | src/stores/project.ts:92-104 | a version equal to the project's choice gives its path, the first in list order; a "System Default" path gives the empty path |
| ProjectStore.DefaultMeansSystem | src/stores/project.ts:97-104 | with no exact match, "Default" and "默认" give the first system node's path ("" without one, or when that path is "System Default"); any other choice gives "" |
| ProjectStore.NoChoiceNoPath | src/stores/project.ts:92 | no chosen version, or an empty one, gives "" |
| ProjectStore.RunnerLinesTagged | src/stores/project.ts:116-118 | a fresh run log holds exactly three lines, each tagged "[Runner] " |
| ProjectStore.RunnerLinesPlaceholders | src/stores/project.ts:117-118 | the second line says "None" without a chosen version; the third says "System Default" without a path |
| ProjectStore.Store.BeginRun | src/stores/project.ts:110-118 | the run's log is replaced by the runner lines, the project is selected, the run is marked running |
| ProjectStore.Store.FailStart | src/stores/project.ts:127-130 | the run is marked not running and one error line is appended |
| ProjectStore.Store.RunProject | src/stores/project.ts:77-131 | a running run id changes nothing; otherwise the run's log is `RunLog` (runner lines, then the error when the start fails), the project is selected and the flag is true exactly when the start succeeded |
| ProjectStore.Store.ClearLog | src/stores/project.ts:143-145 | that run's log becomes empty and nothing else changes |
| ProjectStore.Refreshed | src/stores/project.ts:149-155 | only `scripts` changes, to the returned list or [] when none was returned, and a failed scan keeps the project |
| ProjectStore.RefreshedAll | src/stores/project.ts:147-158 | count and order are kept; each project is refreshed with its own reply |
| ProjectStore.RefreshKeepsIds | src/stores/project.ts:147-158 | ids never change, and a refresh where every scan failed keeps the list |
| ProjectStore.Store.RefreshAll | src/stores/project.ts:147-158 | the list becomes `RefreshedAll` of the old list; nothing else changes |
| Terminals.DetectWindows | src-tauri/src/system.rs:108-145 | the six Windows candidates in order, each with its probe outcome |
| Terminals.DetectMacOs | src-tauri/src/system.rs:147-172 | the four macOS candidates in order, each with its probe outcome |
| Terminals.DetectLinux | src-tauri/src/system.rs:174-217 | the seven Linux candidates in order, each with its probe outcome |
| Terminals.DetectOther | src-tauri/src/system.rs:219-226 | the single bash candidate with its probe outcome |
| Terminals.DetectAvailableTerminals | src-tauri/src/system.rs:105-229 | one entry per catalogue candidate of the OS family, in catalogue order, with its id, name and probe outcome |
| Terminals.CatalogueIdsUnique | src-tauri/src/system.rs:105-229 | every OS family has at least one candidate and no id appears twice |
| Terminals.CmdAlwaysAvailable | src-tauri/src/system.rs:110-114 | on Windows the first entry is cmd and it is available on every machine |
| Terminals.NoLocatorNoCommand | src-tauri/src/system.rs:43-61 | when the locator cannot be started every command probe is false |
| Terminals.GitBashPathFirst | src-tauri/src/system.rs:71-83 | an existing install path finds Git Bash; otherwise it is found exactly when bash is on the search path |
| Terminals.WindowsTerminalPathFirst | src-tauri/src/system.rs:64-68 | wt.exe under LOCALAPPDATA finds it; otherwise it is found exactly when wt is on the search path |
| Terminals.CmderByPathsOnly | src-tauri/src/system.rs:86-92 | machines that agree on the two Cmder paths agree on Cmder |
| ContextMenu.MenuText | src-tauri/src/system.rs:240-244 | the Chinese label exactly for locale "zh", the English label for every other locale |
| ContextMenu.JoinPath | src-tauri/src/system.rs:278-279 | the joined path is the base and the relative part, with or without one separator between them |
| ContextMenu.Registry.constructor | src-tauri/src/system.rs:236 | the registry handle holds the given keys and locked keys |
| ContextMenu.Registry.WriteEntry | src-tauri/src/system.rs:253-258 | the registry and outcome are those of `EnableKey` on the old registry |
| ContextMenu.Registry.DeleteSubkeyAll | src-tauri/src/system.rs:260 | the registry becomes `DeleteTree` of the old one: the tree's keys go, except those with an existing locked key at or below them |
| ContextMenu.Registry.SetContextMenu | src-tauri/src/system.rs:235-264 | the registry and outcome are those of `RegistrySet` on the old registry |
| ContextMenu.FileSystem.constructor | src-tauri/src/system.rs:276 | a well-formed file system with the given directories, files and denied paths |
| ContextMenu.FileSystem.EnableEntry | src-tauri/src/system.rs:287-319 | the file system and outcome are those of `LinuxEnableStep` on the old state: the directory made when missing, the executable path resolved, the desktop file written with mode 0755; it stays well formed |
| ContextMenu.FileSystem.DisableEntry | src-tauri/src/system.rs:320-329 | the file system and outcome are those of `LinuxDisableStep`: nothing to remove is success, otherwise the file is removed or the error returned |
| ContextMenu.FileSystem.SetContextMenu | src-tauri/src/system.rs:276-331 | the file system and outcome are those of `LinuxSet` on the old state; it stays well formed |
| ContextMenu.SetContextMenu | src-tauri/src/system.rs:235-348 | the outcome and the new registry and file system are those of `SetOn` for the OS family |
| ContextMenuProperties.KeysDistinct | src-tauri/src/system.rs:246-249 | the two menu keys and their command subkeys are four different keys, and neither subtree contains the other key |
| ContextMenuProperties.EnableUnfolds | src-tauri/src/system.rs:251-258 | enabling writes the folder entry and then, only if that succeeded, the background entry |
| ContextMenuProperties.DisableUnfolds | src-tauri/src/system.rs:259-263 | disabling deletes the folder subtree, then the background subtree, and reports success |
| ContextMenuProperties.RegistryEnable | src-tauri/src/system.rs:235-264 | enable succeeds exactly when the executable path is usable and none of the four keys is locked; then both entries hold the label, the icon and `"<exe>" "%V"`, and check is true |
| ContextMenuProperties.SameValues | src-tauri/src/system.rs:254-255 | setting values a key already holds leaves it unchanged |
| ContextMenuProperties.EnableKeyAgain | src-tauri/src/system.rs:253-258 | rewriting an entry already written succeeds and leaves the registry unchanged |
| ContextMenuProperties.RegistryEnableIdempotent | src-tauri/src/system.rs:251-258 | a second enable succeeds and leaves the state of the first |
| ContextMenuProperties.DeleteTreeGone | src-tauri/src/system.rs:260 | deleting a tree removes every key of it that has no existing locked key at or below it |
| ContextMenuProperties.DeleteTreeKeepsLocked | src-tauri/src/system.rs:260 | an existing locked key keeps itself and each of its existing ancestors, with their values |
| ContextMenuProperties.DeleteTreeTwice | src-tauri/src/system.rs:260 | deleting a subtree twice is deleting it once |
| ContextMenuProperties.DeleteTreesCommute | src-tauri/src/system.rs:251-262 | the two deletions can happen in either order |
| ContextMenuProperties.RegistryDisable | src-tauri/src/system.rs:237-262 | with a usable executable path disable succeeds; check is then false unless an existing key of the folder tree is locked, and then check is as it was |
| ContextMenuProperties.LockedCommandKeepsMenu | src-tauri/src/system.rs:253-262 | an existing locked `command` subkey keeps the folder key: disable succeeds and check still reports the menu installed |
| ContextMenuProperties.HalfWrittenMenuRemoved | src-tauri/src/system.rs:251-271 | an enable refused at the `command` key fails but leaves check true; that key was never created, so a later disable removes the folder key and check is false |
| ContextMenuProperties.RegistryDisableIdempotent | src-tauri/src/system.rs:259-262 | a second disable leaves the state of the first; disabling with nothing of the menu present changes nothing |
| ContextMenuProperties.RegistryNeedsExePath | src-tauri/src/system.rs:237-238 | without a usable executable path enable and disable both fail and change nothing |
| ContextMenuProperties.RegistryPartialEnable | src-tauri/src/system.rs:251-258 | with the background key locked, enable fails but leaves the folder entry written |
| ContextMenuProperties.RegistryFrame | src-tauri/src/system.rs:235-264 | keys outside the two subtrees are neither changed, removed nor added |
| ContextMenuProperties.DesktopPathsAgree | src-tauri/src/system.rs:278-279 | the path set writes is the path check tests |
| ContextMenuProperties.DesktopFileNotAppsDir | src-tauri/src/system.rs:278-279 | the desktop file is not the applications directory itself |
| ContextMenuProperties.LinuxEnable | src-tauri/src/system.rs:276-319 | enable succeeds exactly when HOME is set, the directory can be made, the executable path is usable and the file can be written; then the file holds the desktop entry with mode 0755 and check is true |
| ContextMenuProperties.LinuxEnableIdempotent | src-tauri/src/system.rs:287-319 | a second enable succeeds and leaves the state of the first |
| ContextMenuProperties.LinuxDisable | src-tauri/src/system.rs:320-330 | with the file absent disable succeeds and changes nothing; a successful disable leaves check false and another disable changes nothing |
| ContextMenuProperties.LinuxNeedsHome | src-tauri/src/system.rs:274-342 | without HOME set fails with "HOME not set" and changes nothing, and check is false |
| ContextMenuProperties.SplitLines | src-tauri/src/system.rs:297-304 | newline-terminated lines split back into those lines and a final empty piece |
| ContextMenuProperties.DesktopEntryLines | src-tauri/src/system.rs:297-304 | the desktop file is exactly the seven lines, each ending with a newline |
| ContextMenuProperties.LinuxFreshEnable | src-tauri/src/system.rs:276-319 | an English enable on an empty home creates the applications directory and the desktop file naming the English label and `Exec="<exe>" "%f"` |
| ContextMenuProperties.DesktopFileUnderTmpHome | src-tauri/src/system.rs:278-279 | with HOME=/tmp/home the file is /tmp/home/.local/share/applications/fp-node-manager-context.desktop |
| ContextMenuProperties.SupportedIffEnableCanSucceed | src-tauri/src/system.rs:356-366 | the integration is reported supported exactly on the OS families where some enable succeeds |
| ContextMenuProperties.UnsupportedRefuses | src-tauri/src/system.rs:344-354 | elsewhere set fails with the guidance text and changes nothing, and check is false |
| ContextMenuProperties.EnableThenCheck | src-tauri/src/system.rs:235-342 | a successful enable is seen by check |
| ContextMenuProperties.DisableThenCheck | src-tauri/src/system.rs:235-342 | a successful disable makes check false, except on Windows when an existing locked key of the folder tree kept the folder key; then check is as before |
| ContextMenuProperties.SetIdempotent | src-tauri/src/system.rs:235-348 | repeating a successful set succeeds and changes nothing more |
| ProjectScan.Components | src-tauri/src/project.rs:62 | path components are never empty or "." and come from the path's pieces |
| ProjectScan.FileName | src-tauri/src/project.rs:62 | a file name is never "", "." or ".." and contains no separator |
| ProjectScan.ComponentsAppend | src-tauri/src/project.rs:62 | the components of joined pieces are the components of each part |
| ProjectScan.FileNameOfChild | src-tauri/src/project.rs:62 | the file name of dir/name is name |
| ProjectScan.FileNameTrailingSlash | src-tauri/src/project.rs:62 | a trailing separator does not change the file name |
| ProjectScan.FileNameMissing | src-tauri/src/project.rs:62 | "/", "." and a path ending in ".." have no file name |
| ProjectScan.PackageManager | src-tauri/src/project.rs:64-71 | none exactly when no lock file is present; otherwise pnpm, yarn or npm |
| ProjectScan.LockFilePrecedence | src-tauri/src/project.rs:64-71 | pnpm-lock.yaml wins over everything, yarn.lock over package-lock.json, and package-lock.json alone gives npm |
| ProjectScan.CollectKeys | src-tauri/src/project.rs:59 | the keys in iteration order are the map's keys, each once |
| Text.Sort | src-tauri/src/project.rs:60 | the result is ascending in code-point order and a permutation of the input |
| Text.SortedUnique | src-tauri/src/project.rs:59-60 | two ascending arrangements of the same strings are equal, so the map's iteration order does not show |
| ProjectScan.ScanProject | src-tauri/src/project.rs:47-79 | without package.json the error "package.json not found"; a read or parse failure gives its error; a path without a file name and no package name panics; otherwise a descriptor with sorted script names, the package name or the last path component, the path unchanged and the package manager |
| ProjectScan.DescriptorUnique | src-tauri/src/project.rs:59-78 | the descriptor is determined by the path, the directory and package.json |
| ProjectScan.ScriptListed | src-tauri/src/project.rs:59-60 | a script is listed exactly when package.json declares it, and at most once |
| ProjectScan.Listed | src-tauri/src/project.rs:33-42 | no more entries than the directory yields |
| ProjectScan.ReadDir | src-tauri/src/project.rs:29-45 | fails with the error exactly when the directory cannot be opened; otherwise the listed entries |
| ProjectScan.ListedAppend | src-tauri/src/project.rs:33-42 | the entries keep iteration order |
| ProjectScan.ListedOne | src-tauri/src/project.rs:34-40 | an entry with a readable file type yields its name and kind; any other yields nothing |
| ProjectScan.ListedFromEntries | src-tauri/src/project.rs:33-42 | every reported entry comes from a directory entry with that name and kind |
| SettingsStore.DefaultSettings | src/stores/settings.ts:9-15 | the five defaults and their values; with nothing stored the theme follows the system |
| SettingsStore.DecimalString | src/stores/settings.ts:45 | an index's property name is a non-empty string of digits |
| SettingsStore.DecimalRoundTrip | src/stores/settings.ts:45 | reading an index's property name back gives the index |
| SettingsStore.DecimalInjective | src/stores/settings.ts:45 | two indices never share a property name |
| SettingsStore.IndexPropsAt | src/stores/settings.ts:45 | each index property of an array or string holds that element |
| SettingsStore.IndexPropsKeys | src/stores/settings.ts:45 | an array or string has no other properties |
| SettingsStore.StoredOverridesDefaults | src/stores/settings.ts:36-49 | a stored key overrides its default, an absent key keeps its default, and no other key appears |
| SettingsStore.NothingStoredKeepsDefaults | src/stores/settings.ts:36-49 | nothing stored, an empty text, unparsable JSON and `null` all leave the defaults |
| SettingsStore.PrimitiveAddsNothing | src/stores/settings.ts:45 | a stored number, boolean or null adds no property |
| SettingsStore.LegacyThemeColorMigrates | src/stores/settings.ts:41-45 | a truthy themeColor without a truthy themeMode loads without themeColor and with themeMode "auto", all other stored keys kept |
| SettingsStore.MigrateIdempotent | src/stores/settings.ts:41-44 | a migrated value needs no further migration |
| SettingsStore.StringSpreads | src/stores/settings.ts:45 | a stored JSON string spreads into one property per character, keyed by index |
| SettingsStore.DarkRule | src/stores/settings.ts:54-55 | dark exactly for "dark", or "auto" when the system prefers dark; only "auto" depends on the system |
| SettingsStore.Store.constructor | src/stores/settings.ts:8-83 | the loaded settings, an empty terminal list, the locale applied when truthy and the dark class by the rule |
| SettingsStore.Store.FetchAvailableTerminals | src/stores/settings.ts:19-30 | detection runs exactly when the list is empty or force is set; only a successful detection replaces the list; the current list is returned |
| SettingsStore.Store.UpdateTheme | src/stores/settings.ts:53-62 | the dark class follows the rule and nothing else changes |
| SettingsStore.Store.OnSystemThemeChange | src/stores/settings.ts:65-69 | under "auto" the dark class becomes the new preference; otherwise nothing changes |
| SettingsStore.Store.ApplySettings | src/stores/settings.ts:71-80 | a truthy locale goes to i18n, any other leaves it; the dark class follows the rule |
| SettingsStore.Store.ChangeSettings | src/stores/settings.ts:85-88 | the new settings are stored and applied |

## Left out

- `src-tauri/src/updater.rs` is not part of this model. It is an HTTP download, a file write and a process start, with nothing to state.
- `get_platform_info` is left out. It returns compile-time constants.
- Real OS access is left out: `Command::new`, `winreg`, `std::fs`, `std::env::var`, `current_exe` and `update-desktop-database`. Their effects are abstract inputs (`Env`, `Keys` with `locked`, `Fs` with `denied`, `ExePath`). The desktop-database refresh has no modelled effect, because its outcome is discarded.
- `#[cfg]` compilation becomes an `OsFamily` parameter.
- serde is left out. The package.json read and parse arrive as a `ManifestRead`, and the descriptor's serialisation is not modelled.
- Path handling covers `/`-separated paths only for `Path::file_name`. Windows separators and prefixes are not modelled.
- ProjectScan.ScanProject: `to_str().unwrap()` on a non-UTF-8 name is not modelled, because paths are strings.
- ProjectScan.ReadDir: `to_string_lossy` is not modelled, because names are strings.
- Vue and browser machinery is left out: pinia, `ref`/`watch` reactivity, `requestAnimationFrame` (modelled as the `flushPending` flag), `document.classList` (the `darkClass` field), `matchMedia` (a boolean parameter), `localStorage` (a text parameter), i18n (the `i18nLocale` field) and `console.error`.
- Writing the settings to `localStorage` in the watcher is left out. `JSON.stringify` is not modelled.
- Async interleaving is left out. `runProject`, `refreshAll` and `fetchAvailableTerminals` run as sequential steps, and their awaited calls arrive as parameters.
- The start-up `fetchAvailableTerminals()` call is a separate call of `FetchAvailableTerminals`, not part of the constructor.
- ProjectStore.Store.RunProject: the node store's `loadNvmNodes` step, taken when the version list is empty, is an input, and `versions` is the list after loading. Its failure path is left out: the call sits outside the `try`, so a rejected load makes `runProject` reject before any state changes, and the model has no such outcome.
- `stopProject` is left out. It only forwards to the back end and logs errors, and it changes no store state.
- Nvm.NormalizeNvmVersion: `toLowerCase` is modelled only as far as it matters, comparing the first character with `v` and `V`. `trim` removes the full ECMAScript white-space and line-terminator set, which is a superset of ASCII white space.
- Nvm.FindInstalledNodeVersion: JavaScript's `find` on a sparse array is not modelled, because lists are sequences.
- ContextMenu.Registry.DeleteSubkeyAll: when an existing locked key stops the deletion, the model (`DeleteTree`) removes every key of the tree that has no existing locked key at or below it. The registry stops at the first failure, so which of those keys it removed first depends on its enumeration order, which is not modelled.
- ContextMenu.FileSystem.EnableEntry: only `File::create` can fail at the desktop file, and then before anything is written. The source can also fail after the file exists, at `write_all`, `fs::metadata` or `set_permissions` (system.rs:307-312). Enable then returns the error and leaves the file on disk, empty or partly written or without mode 0755, and check reports the menu installed. The file-system model has no failure for a file that could be created.
- ContextMenuProperties.LinuxEnable: "succeeds exactly when" covers the failure points of the model only: a missing HOME, the directory, the executable path and the creation of the file. It does not cover the `write_all`, `fs::metadata` and `set_permissions` failures left out under `ContextMenu.FileSystem.EnableEntry`.
- ContextMenu.Registry.WriteEntry: only the two `create_subkey` calls can fail. The source's three `set_value` calls (system.rs:254, 255 and 258) can also fail after their key was created, and then the key is left with none or only some of its values. The key map has no failure for writing a value.
- ContextMenuProperties.RegistryEnable: "succeeds exactly when" covers the failure points of the model only: the executable path and the four key creations. It does not cover the `set_value` failures left out under `ContextMenu.Registry.WriteEntry`.
- ContextMenu.Registry.WriteEntry: `create_subkey` also creates missing parent keys such as `Software\Classes\Directory\shell`, and the model does not. `Keys` is flat, and only the entry key and its `command` subkey are added.
- ContextMenuProperties.RegistryFrame: "no key outside the two subtrees is added" holds for the flat model only. The source's `create_subkey` may add the missing parent keys of the two entries.
- ContextMenuProperties.LinuxFreshEnable: the exact resulting file system holds for the flat model only. The source's `create_dir_all` also creates the missing ancestors of the applications directory, such as the home directory, `.local` and `.local/share`, and the model creates only the applications directory.
- SettingsStore.StringSpreads: strings are sequences of code points, so a stored string spreads into one property per code point. JavaScript spreads by UTF-16 code unit, so a character outside the Basic Multilingual Plane gives two properties in the source, each holding a lone surrogate.
