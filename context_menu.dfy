/**
 * The "open in this app" shell integration (src-tauri/src/system.rs, set_context_menu,
 * check_context_menu, is_context_menu_supported): registry keys on Windows, a desktop
 * file on Linux, and a refusal everywhere else.
 */
module ContextMenu {
  import opened Wrappers
  import opened Platform
  import Text

  const ZhLabel: string := "在前端项目 & Node 管理器中打开"
  const EnLabel: string := "Open in Project & Node Manager"
  const Guidance: string := "Not supported on this platform yet. Please use 'Open With' system configuration."

  /** The menu label: the Chinese text for locale "zh", the English text for every other locale. */
  function MenuText(locale: string): (text: string)
    ensures text == ZhLabel <==> locale == "zh"
    ensures text == EnLabel <==> locale != "zh"
  {
    if locale == "zh" then ZhLabel else EnLabel
  }

  /** is_context_menu_supported */
  predicate IsContextMenuSupported(os: OsFamily) {
    os == Windows || os == Linux
  }

  // ---------------------------------------------------------------------------
  // Windows: keys under HKEY_CURRENT_USER

  const ShellKey: string := "Software\\Classes\\Directory\\shell\\fp-node-manager"
  const BackgroundKey: string := "Software\\Classes\\Directory\\Background\\shell\\fp-node-manager"
  const MenuKeys: seq<string> := [ShellKey, BackgroundKey]

  /** The registry as key path -> named values; the name "" is a key's default value. */
  type Keys = map<string, map<string, string>>

  /** The outcome of a registry operation and the registry after it. */
  datatype RegStep = RegStep(outcome: Result<()>, keys: Keys)

  function CommandKey(path: string): string {
    path + "\\command"
  }

  /** The command a menu entry runs: the quoted executable and the quoted selected folder. */
  function CommandLine(exe: string): string {
    "\"" + exe + "\" \"%V\""
  }

  function ValuesAt(keys: Keys, path: string): map<string, string> {
    if path in keys then keys[path] else map[]
  }

  /** Key `k` lies in the subtree rooted at `path`. */
  predicate InTree(k: string, path: string) {
    k == path || Text.IsPrefix(path + "\\", k)
  }

  /** One pass of the enable loop: create `path`, set its default value and `Icon`, create its
      `command` subkey and set that key's default value. `locked` gives the keys whose creation
      fails, with the error text; the steps done before a failure stay done. */
  function EnableKey(keys: Keys, locked: map<string, string>, path: string, menuLabel: string, exe: string): RegStep {
    if path in locked then RegStep(Failure(locked[path]), keys)
    else
      var written := keys[path := ValuesAt(keys, path)["" := menuLabel]["Icon" := exe]];
      var cmd := CommandKey(path);
      if cmd in locked then RegStep(Failure(locked[cmd]), written)
      else RegStep(Success(()), written[cmd := ValuesAt(written, cmd)["" := CommandLine(exe)]])
  }

  /** Some existing locked key lies at `k` or below it, so `k` cannot be deleted: the registry
      removes a key only after its subkeys are gone. */
  predicate Pinned(keys: Keys, locked: map<string, string>, k: string) {
    exists l :: l in locked && l in keys && InTree(l, k)
  }

  /** delete_subkey_all(path) with its error ignored: every key of the subtree goes, except the
      keys that an existing locked key at or below them keeps in place. */
  function DeleteTree(keys: Keys, locked: map<string, string>, path: string): Keys {
    map k | k in keys && (!InTree(k, path) || Pinned(keys, locked, k)) :: keys[k]
  }

  /** The loop over the key paths, stopping at the first failed enable step. */
  function ApplyAll(keys: Keys, locked: map<string, string>, paths: seq<string>, enable: bool, menuLabel: string, exe: string): RegStep
    decreases |paths|
  {
    if paths == [] then RegStep(Success(()), keys)
    else if enable then
      var step := EnableKey(keys, locked, paths[0], menuLabel, exe);
      if step.outcome.Failure? then step else ApplyAll(step.keys, locked, paths[1..], enable, menuLabel, exe)
    else ApplyAll(DeleteTree(keys, locked, paths[0]), locked, paths[1..], enable, menuLabel, exe)
  }

  /** set_context_menu on Windows. The executable path is resolved before either branch. */
  function RegistrySet(keys: Keys, locked: map<string, string>, enable: bool, locale: string, exe: ExePath): RegStep {
    match ExeText(exe)
    case Failure(e) => RegStep(Failure(e), keys)
    case Success(exeStr) => ApplyAll(keys, locked, MenuKeys, enable, MenuText(locale), exeStr)
  }

  /** check_context_menu on Windows: only the folder key is looked at. */
  predicate RegistryCheck(keys: Keys) {
    ShellKey in keys
  }

  /** The registry as the back end changes it. */
  class Registry {
    var keys: Keys
    const locked: map<string, string>

    constructor (keys: Keys, locked: map<string, string>)
      ensures this.keys == keys && this.locked == locked
    {
      this.keys := keys;
      this.locked := locked;
    }

    /** create_subkey, set_value, set_value, create_subkey("command"), set_value. */
    method WriteEntry(path: string, menuLabel: string, exe: string) returns (r: Result<()>)
      modifies this
      ensures RegStep(r, keys) == EnableKey(old(keys), locked, path, menuLabel, exe)
    {
      if path in locked {
        return Failure(locked[path]);
      }
      ghost var before := keys;
      keys := keys[path := ValuesAt(keys, path)["" := menuLabel]];
      keys := keys[path := keys[path]["Icon" := exe]];
      assert keys == before[path := ValuesAt(before, path)["" := menuLabel]["Icon" := exe]];
      var cmd := CommandKey(path);
      if cmd in locked {
        return Failure(locked[cmd]);
      }
      keys := keys[cmd := ValuesAt(keys, cmd)["" := CommandLine(exe)]];
      r := Success(());
    }

    /** delete_subkey_all, whose error the caller discards. */
    method DeleteSubkeyAll(path: string)
      modifies this
      ensures keys == DeleteTree(old(keys), locked, path)
    {
      keys := map k | k in keys && (!InTree(k, path) || Pinned(keys, locked, k)) :: keys[k];
    }

    /** set_context_menu for Windows. */
    method SetContextMenu(enable: bool, locale: string, exe: ExePath) returns (r: Result<()>)
      modifies this
      ensures RegStep(r, keys) == RegistrySet(old(keys), locked, enable, locale, exe)
    {
      var exeText := ExeText(exe);
      if exeText.Failure? {
        return Failure(exeText.error);
      }
      var exeStr := exeText.value;
      var menuText := MenuText(locale);
      var i := 0;
      while i < |MenuKeys|
        invariant 0 <= i <= |MenuKeys|
        invariant ApplyAll(keys, locked, MenuKeys[i..], enable, menuText, exeStr)
               == ApplyAll(old(keys), locked, MenuKeys, enable, menuText, exeStr)
      {
        var path := MenuKeys[i];
        assert MenuKeys[i..][0] == path && MenuKeys[i..][1..] == MenuKeys[i + 1..];
        if enable {
          var step := WriteEntry(path, menuText, exeStr);
          if step.Failure? {
            return step;
          }
        } else {
          DeleteSubkeyAll(path);
        }
        i := i + 1;
      }
      r := Success(());
    }

    /** check_context_menu for Windows. */
    function CheckContextMenu(): bool
      reads this
    {
      RegistryCheck(keys)
    }
  }

  // ---------------------------------------------------------------------------
  // Linux: a desktop file under the user's home

  const AppsSubdir: string := ".local/share/applications"
  const DesktopFileName: string := "fp-node-manager-context.desktop"
  /** The file mode 0o755. */
  const ExecutableMode: nat := 493
  /** The mode of a freshly created file, 0o666 under the usual umask 0o022, that is 0o644. */
  const NewFileMode: nat := 420
  const IsADirectory: string := "Is a directory (os error 21)"
  const NotADirectory: string := "Not a directory (os error 20)"

  /** `Path::join` of a relative path: a separator is added unless `base` is empty or ends with one. */
  function JoinPath(base: string, rel: string): (r: string)
    ensures r == base + rel || r == base + "/" + rel
  {
    if base == "" || base[|base| - 1] == '/' then base + rel else base + "/" + rel
  }

  /** The text made of `lines`, each followed by a newline. */
  function Lines(lines: seq<string>): string {
    if lines == [] then "" else lines[0] + "\n" + Lines(lines[1..])
  }

  /** The lines of the desktop file: a hidden application entry for folders, running the executable on the folder. */
  function DesktopLines(menuLabel: string, exe: string): seq<string> {
    ["[Desktop Entry]", "Type=Application", "Name=" + menuLabel, "Exec=\"" + exe + "\" \"%f\"",
     "Icon=folder-open", "NoDisplay=true", "MimeType=inode/directory;"]
  }

  /** The desktop file's text. */
  function DesktopEntry(menuLabel: string, exe: string): string {
    Lines(DesktopLines(menuLabel, exe))
  }

  datatype FileNode = FileNode(content: string, mode: nat)

  /** The directories and files that exist. */
  datatype Fs = Fs(dirs: set<string>, files: map<string, FileNode>)

  /** `Path::exists`: something, file or directory, is at `p`. */
  predicate Exists(fs: Fs, p: string) {
    p in fs.dirs || p in fs.files
  }

  /** A path is a directory or a file, never both. */
  predicate WellFormed(fs: Fs) {
    fs.dirs !! fs.files.Keys
  }

  datatype FsStep = FsStep(outcome: Result<()>, fs: Fs)

  /** The enable branch on Linux: make the applications directory if it is missing, resolve the
      executable path, write the desktop file and make it executable. */
  function LinuxEnableStep(fs: Fs, denied: map<string, string>, appsDir: string, file: string, menuLabel: string, exe: ExePath): FsStep {
    if !Exists(fs, appsDir) && appsDir in denied then FsStep(Failure(denied[appsDir]), fs)
    else
      var fs1 := if Exists(fs, appsDir) then fs else fs.(dirs := fs.dirs + {appsDir});
      match ExeText(exe)
      case Failure(e) => FsStep(Failure(e), fs1)
      case Success(exeStr) =>
        if file in denied then FsStep(Failure(denied[file]), fs1)
        else if appsDir !in fs1.dirs then FsStep(Failure(NotADirectory), fs1)
        else if file in fs1.dirs then FsStep(Failure(IsADirectory), fs1)
        else FsStep(Success(()), fs1.(files := fs1.files[file := FileNode(DesktopEntry(menuLabel, exeStr), ExecutableMode)]))
  }

  /** The disable branch on Linux: remove the desktop file when something is there. */
  function LinuxDisableStep(fs: Fs, denied: map<string, string>, file: string): FsStep {
    if !Exists(fs, file) then FsStep(Success(()), fs)
    else if file in denied then FsStep(Failure(denied[file]), fs)
    else if file in fs.dirs then FsStep(Failure(IsADirectory), fs)
    else FsStep(Success(()), fs.(files := fs.files - {file}))
  }

  /** set_context_menu on Linux. `denied` gives the paths at which creating or removing fails,
      with the error text. Running update-desktop-database has no effect on the outcome. */
  function LinuxSet(fs: Fs, denied: map<string, string>, home: Option<string>, enable: bool, locale: string, exe: ExePath): FsStep {
    if home.None? then FsStep(Failure("HOME not set"), fs)
    else
      var appsDir := JoinPath(home.value, AppsSubdir);
      var file := JoinPath(appsDir, DesktopFileName);
      if enable then LinuxEnableStep(fs, denied, appsDir, file, MenuText(locale), exe)
      else LinuxDisableStep(fs, denied, file)
  }

  /** check_context_menu on Linux: the desktop file exists; false when HOME is not set. */
  predicate LinuxCheck(fs: Fs, home: Option<string>) {
    home.Some? && Exists(fs, JoinPath(home.value, AppsSubdir + "/" + DesktopFileName))
  }

  /** The file system as the back end changes it. */
  class FileSystem {
    var dirs: set<string>
    var files: map<string, FileNode>
    const denied: map<string, string>

    ghost predicate Valid()
      reads this
    {
      dirs !! files.Keys
    }

    function State(): Fs
      reads this
    {
      Fs(dirs, files)
    }

    constructor (dirs: set<string>, files: map<string, FileNode>, denied: map<string, string>)
      requires dirs !! files.Keys
      ensures Valid() && State() == Fs(dirs, files) && this.denied == denied
    {
      this.dirs := dirs;
      this.files := files;
      this.denied := denied;
    }

    /** The enable branch of set_context_menu for Linux. */
    method EnableEntry(appsDir: string, file: string, menuText: string, exe: ExePath) returns (r: Result<()>)
      requires Valid()
      modifies this
      ensures Valid()
      ensures FsStep(r, State()) == LinuxEnableStep(old(State()), denied, appsDir, file, menuText, exe)
    {
      if !(appsDir in dirs || appsDir in files) {
        if appsDir in denied {
          return Failure(denied[appsDir]);
        }
        dirs := dirs + {appsDir};
      }
      var exeText := ExeText(exe);
      if exeText.Failure? {
        return Failure(exeText.error);
      }
      var content := DesktopEntry(menuText, exeText.value);
      if file in denied {
        return Failure(denied[file]);
      } else if appsDir !in dirs {
        return Failure(NotADirectory);
      } else if file in dirs {
        return Failure(IsADirectory);
      }
      var mode := if file in files then files[file].mode else NewFileMode;
      files := files[file := FileNode(content, mode)];
      files := files[file := files[file].(mode := ExecutableMode)];
      r := Success(());
    }

    /** The disable branch of set_context_menu for Linux. */
    method DisableEntry(file: string) returns (r: Result<()>)
      requires Valid()
      modifies this
      ensures Valid()
      ensures FsStep(r, State()) == LinuxDisableStep(old(State()), denied, file)
    {
      if file in dirs || file in files {
        if file in denied {
          return Failure(denied[file]);
        } else if file in dirs {
          return Failure(IsADirectory);
        }
        files := files - {file};
      }
      r := Success(());
    }

    /** set_context_menu for Linux. */
    method SetContextMenu(enable: bool, locale: string, home: Option<string>, exe: ExePath) returns (r: Result<()>)
      requires Valid()
      modifies this
      ensures Valid()
      ensures FsStep(r, State()) == LinuxSet(old(State()), denied, home, enable, locale, exe)
    {
      if home.None? {
        return Failure("HOME not set");
      }
      var appsDir := JoinPath(home.value, AppsSubdir);
      var file := JoinPath(appsDir, DesktopFileName);
      var menuText := MenuText(locale);
      if enable {
        r := EnableEntry(appsDir, file, menuText, exe);
      } else {
        r := DisableEntry(file);
      }
    }

    /** check_context_menu for Linux. */
    function CheckContextMenu(home: Option<string>): bool
      reads this
    {
      LinuxCheck(State(), home)
    }
  }

  // ---------------------------------------------------------------------------
  // The command as the front end calls it: one implementation per OS family

  /** Everything set_context_menu and check_context_menu read or change on a machine. */
  datatype Machine = Machine(keys: Keys, locked: map<string, string>, fs: Fs, denied: map<string, string>,
                             home: Option<string>, exe: ExePath)

  datatype MachineStep = MachineStep(outcome: Result<()>, machine: Machine)

  /** set_context_menu as built for `os`. */
  function SetOn(os: OsFamily, m: Machine, enable: bool, locale: string): MachineStep {
    match os
    case Windows =>
      var step := RegistrySet(m.keys, m.locked, enable, locale, m.exe);
      MachineStep(step.outcome, m.(keys := step.keys))
    case Linux =>
      var step := LinuxSet(m.fs, m.denied, m.home, enable, locale, m.exe);
      MachineStep(step.outcome, m.(fs := step.fs))
    case _ => MachineStep(Failure(Guidance), m)
  }

  /** check_context_menu as built for `os`. */
  predicate CheckOn(os: OsFamily, m: Machine) {
    match os
    case Windows => RegistryCheck(m.keys)
    case Linux => LinuxCheck(m.fs, m.home)
    case _ => false
  }

  /** set_context_menu: dispatches on the OS family the back end was built for. */
  method SetContextMenu(os: OsFamily, registry: Registry, files: FileSystem, home: Option<string>, exe: ExePath,
                        enable: bool, locale: string) returns (r: Result<()>)
    requires files.Valid()
    modifies registry, files
    ensures files.Valid()
    ensures var step := SetOn(os, Machine(old(registry.keys), registry.locked, old(files.State()), files.denied, home, exe), enable, locale);
            r == step.outcome && registry.keys == step.machine.keys && files.State() == step.machine.fs
  {
    match os {
      case Windows => r := registry.SetContextMenu(enable, locale, exe);
      case Linux => r := files.SetContextMenu(enable, locale, home, exe);
      case _ => r := Failure(Guidance);
    }
  }
}
