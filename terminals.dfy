/**
 * Terminal discovery (src-tauri/src/system.rs, detect_available_terminals and the
 * check_* probes): a fixed, per-OS list of candidates whose availability is probed
 * against the machine.
 */
module Terminals {
  import opened Platform

  /** One candidate terminal: its id, display name and whether a probe found it. */
  datatype TerminalInfo = TerminalInfo(id: string, name: string, available: bool)

  /** The command locator the probes run: `where` on Windows, `which` elsewhere. */
  function Locator(os: OsFamily): string {
    if os == Windows then "where" else "which"
  }

  /** check_command_exists: the locator could be started and exited with status 0 for `cmd`;
      a locator that cannot be started counts as "not found". */
  predicate CheckCommandExists(os: OsFamily, env: Env, cmd: string) {
    Locator(os) in env.spawnable && cmd in env.locatable
  }

  /** Some path of `paths` exists, `paths.iter().any(|p| Path::new(p).exists())`. */
  predicate AnyExists(paths: seq<string>, env: Env) {
    exists i :: 0 <= i < |paths| && paths[i] in env.existing
  }

  function WindowsTerminalPath(env: Env): string {
    VarOrEmpty(env, "LOCALAPPDATA") + "\\Microsoft\\WindowsApps\\wt.exe"
  }

  /** check_windows_terminal: wt.exe under LOCALAPPDATA, otherwise `wt` on the search path. */
  predicate CheckWindowsTerminal(env: Env) {
    WindowsTerminalPath(env) in env.existing || CheckCommandExists(Windows, env, "wt")
  }

  function GitBashPaths(env: Env): seq<string> {
    [ VarOrEmpty(env, "ProgramFiles") + "\\Git\\bin\\bash.exe",
      VarOrEmpty(env, "ProgramFiles(x86)") + "\\Git\\bin\\bash.exe",
      "C:\\Program Files\\Git\\bin\\bash.exe",
      "C:\\Program Files (x86)\\Git\\bin\\bash.exe" ]
  }

  /** check_git_bash: one of the four install paths, otherwise `bash` on the search path. */
  predicate CheckGitBash(env: Env) {
    AnyExists(GitBashPaths(env), env) || CheckCommandExists(Windows, env, "bash")
  }

  const CmderPaths: seq<string> := ["C:\\cmder\\Cmder.exe", "C:\\tools\\cmder\\Cmder.exe"]

  /** check_cmder: one of the two fixed install paths; there is no command fallback. */
  predicate CheckCmder(env: Env) {
    AnyExists(CmderPaths, env)
  }

  /** check_terminal_app */
  predicate CheckTerminalApp(env: Env) {
    "/System/Applications/Utilities/Terminal.app" in env.existing
  }

  /** check_iterm2 */
  predicate CheckIterm2(env: Env) {
    "/Applications/iTerm.app" in env.existing
  }

  /** How a candidate's availability is decided. */
  datatype Probe = Always | Command(cmd: string) | GitBash | WindowsTerminal | Cmder | TerminalApp | Iterm2

  /** A candidate definition: id, display name and probe. */
  datatype Candidate = Candidate(id: string, name: string, probe: Probe)

  /** The candidates of each OS family, in the order they are reported. */
  function Catalogue(os: OsFamily): seq<Candidate> {
    match os
    case Windows =>
      [Candidate("cmd", "Command Prompt (cmd.exe)", Always),
       Candidate("powershell", "PowerShell", Command("powershell")),
       Candidate("pwsh", "PowerShell Core (pwsh)", Command("pwsh")),
       Candidate("git-bash", "Git Bash", GitBash),
       Candidate("windows-terminal", "Windows Terminal", WindowsTerminal),
       Candidate("cmder", "Cmder", Cmder)]
    case MacOs =>
      [Candidate("terminal", "Terminal.app", TerminalApp),
       Candidate("iterm2", "iTerm2", Iterm2),
       Candidate("zsh", "Zsh", Command("zsh")),
       Candidate("bash", "Bash", Command("bash"))]
    case Linux =>
      [Candidate("bash", "Bash", Command("bash")),
       Candidate("zsh", "Zsh", Command("zsh")),
       Candidate("gnome-terminal", "GNOME Terminal", Command("gnome-terminal")),
       Candidate("konsole", "Konsole (KDE)", Command("konsole")),
       Candidate("xfce4-terminal", "XFCE Terminal", Command("xfce4-terminal")),
       Candidate("alacritty", "Alacritty", Command("alacritty")),
       Candidate("kitty", "Kitty", Command("kitty"))]
    case OtherOs =>
      [Candidate("bash", "Bash", Command("bash"))]
  }

  /** The outcome of a probe on this machine. */
  predicate Holds(os: OsFamily, env: Env, probe: Probe) {
    match probe
    case Always => true
    case Command(cmd) => CheckCommandExists(os, env, cmd)
    case GitBash => CheckGitBash(env)
    case WindowsTerminal => CheckWindowsTerminal(env)
    case Cmder => CheckCmder(env)
    case TerminalApp => CheckTerminalApp(env)
    case Iterm2 => CheckIterm2(env)
  }

  /** `terminals` lists the candidates of `os` in catalogue order, each with its display name and probe outcome. */
  ghost predicate Reports(os: OsFamily, env: Env, terminals: seq<TerminalInfo>) {
    |terminals| == |Catalogue(os)|
    && forall i :: 0 <= i < |terminals| ==>
         var c := Catalogue(os)[i]; terminals[i] == TerminalInfo(c.id, c.name, Holds(os, env, c.probe))
  }

  /** The `#[cfg(target_os = "windows")]` block of detect_available_terminals. */
  method DetectWindows(env: Env) returns (terminals: seq<TerminalInfo>)
    ensures Reports(Windows, env, terminals)
  {
    var os := Windows;
    terminals := [];
    terminals := terminals + [TerminalInfo("cmd", "Command Prompt (cmd.exe)", true)];
    terminals := terminals + [TerminalInfo("powershell", "PowerShell", CheckCommandExists(os, env, "powershell"))];
    terminals := terminals + [TerminalInfo("pwsh", "PowerShell Core (pwsh)", CheckCommandExists(os, env, "pwsh"))];
    terminals := terminals + [TerminalInfo("git-bash", "Git Bash", CheckGitBash(env))];
    terminals := terminals + [TerminalInfo("windows-terminal", "Windows Terminal", CheckWindowsTerminal(env))];
    terminals := terminals + [TerminalInfo("cmder", "Cmder", CheckCmder(env))];
    var cat := Catalogue(os);
    assert |cat| == |terminals| == 6;
    forall i | 0 <= i < 6
      ensures terminals[i] == TerminalInfo(cat[i].id, cat[i].name, Holds(os, env, cat[i].probe))
    {
      if i == 0 {} else if i == 1 {} else if i == 2 {} else if i == 3 {} else if i == 4 {} else {}
    }
  }

  /** The `#[cfg(target_os = "macos")]` block of detect_available_terminals. */
  method DetectMacOs(env: Env) returns (terminals: seq<TerminalInfo>)
    ensures Reports(MacOs, env, terminals)
  {
    var os := MacOs;
    terminals := [];
    terminals := terminals + [TerminalInfo("terminal", "Terminal.app", CheckTerminalApp(env))];
    terminals := terminals + [TerminalInfo("iterm2", "iTerm2", CheckIterm2(env))];
    terminals := terminals + [TerminalInfo("zsh", "Zsh", CheckCommandExists(os, env, "zsh"))];
    terminals := terminals + [TerminalInfo("bash", "Bash", CheckCommandExists(os, env, "bash"))];
    var cat := Catalogue(os);
    assert |cat| == |terminals| == 4;
    forall i | 0 <= i < 4
      ensures terminals[i] == TerminalInfo(cat[i].id, cat[i].name, Holds(os, env, cat[i].probe))
    {
      if i == 0 {} else if i == 1 {} else if i == 2 {} else {}
    }
  }

  /** The `#[cfg(target_os = "linux")]` block of detect_available_terminals. */
  method DetectLinux(env: Env) returns (terminals: seq<TerminalInfo>)
    ensures Reports(Linux, env, terminals)
  {
    var os := Linux;
    terminals := [];
    terminals := terminals + [TerminalInfo("bash", "Bash", CheckCommandExists(os, env, "bash"))];
    terminals := terminals + [TerminalInfo("zsh", "Zsh", CheckCommandExists(os, env, "zsh"))];
    terminals := terminals + [TerminalInfo("gnome-terminal", "GNOME Terminal", CheckCommandExists(os, env, "gnome-terminal"))];
    terminals := terminals + [TerminalInfo("konsole", "Konsole (KDE)", CheckCommandExists(os, env, "konsole"))];
    terminals := terminals + [TerminalInfo("xfce4-terminal", "XFCE Terminal", CheckCommandExists(os, env, "xfce4-terminal"))];
    terminals := terminals + [TerminalInfo("alacritty", "Alacritty", CheckCommandExists(os, env, "alacritty"))];
    terminals := terminals + [TerminalInfo("kitty", "Kitty", CheckCommandExists(os, env, "kitty"))];
    var cat := Catalogue(os);
    assert |cat| == |terminals| == 7;
    forall i | 0 <= i < 7
      ensures terminals[i] == TerminalInfo(cat[i].id, cat[i].name, Holds(os, env, cat[i].probe))
    {
      if i == 0 {} else if i == 1 {} else if i == 2 {} else if i == 3 {} else if i == 4 {} else if i == 5 {} else {}
    }
  }

  /** The fallback block of detect_available_terminals for any other OS. */
  method DetectOther(env: Env) returns (terminals: seq<TerminalInfo>)
    ensures Reports(OtherOs, env, terminals)
  {
    var os := OtherOs;
    terminals := [];
    terminals := terminals + [TerminalInfo("bash", "Bash", CheckCommandExists(os, env, "bash"))];
  }

  /** detect_available_terminals: one entry per candidate of the OS family the back end was built for,
      in catalogue order; a probe that fails only makes its own entry unavailable. */
  method DetectAvailableTerminals(os: OsFamily, env: Env) returns (terminals: seq<TerminalInfo>)
    ensures |terminals| == |Catalogue(os)|
    ensures forall i :: 0 <= i < |terminals| ==>
      var c := Catalogue(os)[i]; terminals[i] == TerminalInfo(c.id, c.name, Holds(os, env, c.probe))
  {
    match os {
      case Windows => terminals := DetectWindows(env);
      case MacOs => terminals := DetectMacOs(env);
      case Linux => terminals := DetectLinux(env);
      case OtherOs => terminals := DetectOther(env);
    }
  }

  /** Every OS family has at least one candidate, and no id appears twice. */
  lemma CatalogueIdsUnique(os: OsFamily)
    ensures |Catalogue(os)| >= 1
    ensures forall i, j :: 0 <= i < j < |Catalogue(os)| ==> Catalogue(os)[i].id != Catalogue(os)[j].id
  {
  }

  /** On Windows the first candidate is cmd, and it is reported available on every machine. */
  lemma CmdAlwaysAvailable(env: Env)
    ensures Catalogue(Windows)[0].id == "cmd" && Holds(Windows, env, Catalogue(Windows)[0].probe)
  {
  }

  /** A locator that cannot be started makes every command probe false instead of failing. */
  lemma NoLocatorNoCommand(os: OsFamily, env: Env, cmd: string)
    requires Locator(os) !in env.spawnable
    ensures !CheckCommandExists(os, env, cmd)
  {
  }

  /** Git Bash is found by an existing install path whatever the search path says,
      and otherwise exactly when `bash` is on the search path. */
  lemma GitBashPathFirst(env: Env)
    ensures AnyExists(GitBashPaths(env), env) ==> CheckGitBash(env)
    ensures !AnyExists(GitBashPaths(env), env) ==> (CheckGitBash(env) <==> CheckCommandExists(Windows, env, "bash"))
  {
  }

  /** Windows Terminal is found by its LOCALAPPDATA path first, then by `wt` on the search path. */
  lemma WindowsTerminalPathFirst(env: Env)
    ensures WindowsTerminalPath(env) in env.existing ==> CheckWindowsTerminal(env)
    ensures WindowsTerminalPath(env) !in env.existing ==> (CheckWindowsTerminal(env) <==> CheckCommandExists(Windows, env, "wt"))
  {
  }

  /** Cmder depends on its two install paths only: machines that agree on those agree on Cmder. */
  lemma CmderByPathsOnly(env1: Env, env2: Env)
    requires forall i :: 0 <= i < |CmderPaths| ==> (CmderPaths[i] in env1.existing <==> CmderPaths[i] in env2.existing)
    ensures CheckCmder(env1) == CheckCmder(env2)
  {
    if CheckCmder(env1) {
      var i :| 0 <= i < |CmderPaths| && CmderPaths[i] in env1.existing;
    }
    if CheckCmder(env2) {
      var i :| 0 <= i < |CmderPaths| && CmderPaths[i] in env2.existing;
    }
  }
}
