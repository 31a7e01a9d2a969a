/**
 * What the desktop back end asks of the machine it runs on (src-tauri/src/system.rs):
 * the operating-system family it was built for, the paths that exist, the programs
 * that can be started, the environment variables and its own executable path.
 */
module Platform {
  import opened Wrappers

  /** The `target_os` the back end was compiled for. */
  datatype OsFamily = Windows | MacOs | Linux | OtherOs

  /**
   * A snapshot of the machine as the probes see it.
   * `existing`  : paths for which `Path::exists` is true;
   * `spawnable` : programs that `Command::new(..).output()` can start;
   * `locatable` : names for which the command locator (`where` or `which`) exits with status 0;
   * `vars`      : the environment variables that are set to valid Unicode.
   */
  datatype Env = Env(existing: set<string>, spawnable: set<string>, locatable: set<string>, vars: map<string, string>)

  /** `std::env::var(name).unwrap_or_default()`: the value, or "" when unset or not Unicode. */
  function VarOrEmpty(env: Env, name: string): string {
    if name in env.vars then env.vars[name] else ""
  }

  /** How `std::env::current_exe()` followed by `to_str()` turned out. */
  datatype ExePath = Unresolvable(error: string) | NotUnicode | Resolved(path: string)

  /** The executable path as text, with the source's error for each way that fails. */
  function ExeText(exe: ExePath): Result<string> {
    match exe
    case Unresolvable(e) => Failure(e)
    case NotUnicode => Failure("Invalid path")
    case Resolved(p) => Success(p)
  }
}
