/**
 * What the shell integration promises: enabling and disabling are idempotent, enable
 * followed by check reports installed, disable followed by check reports not installed,
 * nothing outside the integration's own keys or file changes, and the exact texts written.
 */
module ContextMenuProperties {
  import opened Wrappers
  import opened Platform
  import opened ContextMenu
  import Text

  // ---------------------------------------------------------------------------
  // Windows

  lemma KeysDistinct()
    ensures ShellKey != BackgroundKey
    ensures CommandKey(ShellKey) != BackgroundKey && CommandKey(BackgroundKey) != ShellKey
    ensures CommandKey(ShellKey) != CommandKey(BackgroundKey)
    ensures CommandKey(ShellKey) != ShellKey && CommandKey(BackgroundKey) != BackgroundKey
    ensures !InTree(BackgroundKey, ShellKey) && !InTree(CommandKey(BackgroundKey), ShellKey)
    ensures !InTree(ShellKey, BackgroundKey) && !InTree(CommandKey(ShellKey), BackgroundKey)
    ensures InTree(CommandKey(ShellKey), ShellKey) && InTree(CommandKey(BackgroundKey), BackgroundKey)
  {
    assert ShellKey[27] != BackgroundKey[27];
    assert (ShellKey + "\\")[27] == ShellKey[27];
    assert (BackgroundKey + "\\")[27] == BackgroundKey[27];
    assert CommandKey(ShellKey)[27] == ShellKey[27];
    assert CommandKey(BackgroundKey)[27] == BackgroundKey[27];
    assert CommandKey(ShellKey)[..|ShellKey| + 1] == ShellKey + "\\";
    assert CommandKey(BackgroundKey)[..|BackgroundKey| + 1] == BackgroundKey + "\\";
  }

  /** Enabling runs the entry steps for the folder key, then, if they all succeeded, for the background key. */
  lemma EnableUnfolds(keys: Keys, locked: map<string, string>, menuText: string, exe: string)
    ensures ApplyAll(keys, locked, MenuKeys, true, menuText, exe)
         == (var first := EnableKey(keys, locked, ShellKey, menuText, exe);
             if first.outcome.Failure? then first else EnableKey(first.keys, locked, BackgroundKey, menuText, exe))
  {
    var first := EnableKey(keys, locked, ShellKey, menuText, exe);
    assert MenuKeys[0] == ShellKey && MenuKeys[1..] == [BackgroundKey];
    if first.outcome.Success? {
      var second := EnableKey(first.keys, locked, BackgroundKey, menuText, exe);
      assert ApplyAll(first.keys, locked, [BackgroundKey], true, menuText, exe) == second by {
        assert [BackgroundKey][0] == BackgroundKey && [BackgroundKey][1..] == [];
        if second.outcome.Success? {
          assert ApplyAll(second.keys, locked, [], true, menuText, exe) == RegStep(Success(()), second.keys);
        }
      }
    }
  }

  /** Disabling deletes the folder subtree and then the background subtree, and always reports success. */
  lemma DisableUnfolds(keys: Keys, locked: map<string, string>, menuText: string, exe: string)
    ensures ApplyAll(keys, locked, MenuKeys, false, menuText, exe)
         == RegStep(Success(()), DeleteTree(DeleteTree(keys, locked, ShellKey), locked, BackgroundKey))
  {
    var first := DeleteTree(keys, locked, ShellKey);
    assert MenuKeys[0] == ShellKey && MenuKeys[1..] == [BackgroundKey];
    assert [BackgroundKey][0] == BackgroundKey && [BackgroundKey][1..] == [];
    assert ApplyAll(first, locked, [BackgroundKey], false, menuText, exe)
        == ApplyAll(DeleteTree(first, locked, BackgroundKey), locked, [], false, menuText, exe);
  }

  /** After an enable of every menu key: each has the label as default value, the executable
      as `Icon`, and a `command` subkey running the executable on the folder. */
  ghost predicate EntriesWritten(keys: Keys, menuText: string, exe: string) {
    forall i :: 0 <= i < |MenuKeys| ==>
      var p := MenuKeys[i];
      p in keys && "" in keys[p] && keys[p][""] == menuText && "Icon" in keys[p] && keys[p]["Icon"] == exe
      && CommandKey(p) in keys && "" in keys[CommandKey(p)] && keys[CommandKey(p)][""] == CommandLine(exe)
  }

  /** Windows enable succeeds exactly when the executable path is usable and none of the four keys
      is locked; it then writes both entries, and check reports the menu installed. */
  lemma RegistryEnable(keys: Keys, locked: map<string, string>, locale: string, exe: ExePath)
    ensures var step := RegistrySet(keys, locked, true, locale, exe);
      step.outcome.Success? <==>
        (exe.Resolved? && ShellKey !in locked && CommandKey(ShellKey) !in locked
         && BackgroundKey !in locked && CommandKey(BackgroundKey) !in locked)
    ensures var step := RegistrySet(keys, locked, true, locale, exe);
      step.outcome.Success? ==> EntriesWritten(step.keys, MenuText(locale), exe.path) && RegistryCheck(step.keys)
  {
    if exe.Resolved? {
      KeysDistinct();
      EnableUnfolds(keys, locked, MenuText(locale), exe.path);
    }
  }

  lemma SameValues(m: map<string, string>, k1: string, v1: string, k2: string, v2: string)
    requires k1 in m && m[k1] == v1 && k2 in m && m[k2] == v2
    ensures m[k1 := v1][k2 := v2] == m
  {
  }

  /** Rewriting an entry that is already written leaves the registry as it is. */
  lemma EnableKeyAgain(keys: Keys, locked: map<string, string>, p: string, menuText: string, exe: string)
    requires p !in locked && CommandKey(p) !in locked
    requires CommandKey(p) != p
    requires p in keys && "" in keys[p] && keys[p][""] == menuText && "Icon" in keys[p] && keys[p]["Icon"] == exe
    requires CommandKey(p) in keys && "" in keys[CommandKey(p)] && keys[CommandKey(p)][""] == CommandLine(exe)
    ensures EnableKey(keys, locked, p, menuText, exe) == RegStep(Success(()), keys)
  {
    SameValues(keys[p], "", menuText, "Icon", exe);
    var written := keys[p := ValuesAt(keys, p)["" := menuText]["Icon" := exe]];
    assert written == keys;
    assert ValuesAt(written, CommandKey(p))["" := CommandLine(exe)] == keys[CommandKey(p)];
  }

  /** Enabling twice in a row does not fail the second time and leaves the state of enabling once. */
  lemma RegistryEnableIdempotent(keys: Keys, locked: map<string, string>, locale: string, exe: ExePath)
    requires RegistrySet(keys, locked, true, locale, exe).outcome.Success?
    ensures var once := RegistrySet(keys, locked, true, locale, exe);
      RegistrySet(once.keys, locked, true, locale, exe) == once
  {
    RegistryEnable(keys, locked, locale, exe);
    KeysDistinct();
    var once := RegistrySet(keys, locked, true, locale, exe);
    var menuText := MenuText(locale);
    assert MenuKeys[0] == ShellKey && MenuKeys[1] == BackgroundKey;
    assert once.outcome.Success? && once.outcome.value == ();
    assert EntriesWritten(once.keys, menuText, exe.path);
    EnableUnfolds(once.keys, locked, menuText, exe.path);
    EnableKeyAgain(once.keys, locked, ShellKey, menuText, exe.path);
    EnableKeyAgain(once.keys, locked, BackgroundKey, menuText, exe.path);
  }

  lemma DeleteTreeGone(keys: Keys, locked: map<string, string>, path: string, k: string)
    requires InTree(k, path) && !Pinned(keys, locked, k)
    ensures k !in DeleteTree(keys, locked, path)
  {
  }

  /** An existing locked key keeps itself and every ancestor of it that was there. */
  lemma DeleteTreeKeepsLocked(keys: Keys, locked: map<string, string>, path: string, l: string, k: string)
    requires l in locked && l in keys && InTree(l, k) && k in keys
    ensures k in DeleteTree(keys, locked, path) && DeleteTree(keys, locked, path)[k] == keys[k]
  {
  }

  lemma DeleteTreeTwice(keys: Keys, locked: map<string, string>, path: string)
    ensures DeleteTree(DeleteTree(keys, locked, path), locked, path) == DeleteTree(keys, locked, path)
  {
  }

  lemma DeleteTreesCommute(keys: Keys, locked: map<string, string>, p: string, q: string)
    ensures DeleteTree(DeleteTree(keys, locked, p), locked, q) == DeleteTree(DeleteTree(keys, locked, q), locked, p)
  {
  }

  /** Windows disable with a usable executable path always succeeds; it removes the folder entry
      unless an existing locked key of the folder tree keeps it, in which case the swallowed
      deletion error leaves check as it was. */
  lemma RegistryDisable(keys: Keys, locked: map<string, string>, locale: string, exe: ExePath)
    requires exe.Resolved?
    ensures var step := RegistrySet(keys, locked, false, locale, exe);
      step.outcome.Success?
      && (!Pinned(keys, locked, ShellKey) ==> !RegistryCheck(step.keys))
      && (Pinned(keys, locked, ShellKey) ==> RegistryCheck(step.keys) == RegistryCheck(keys))
  {
    KeysDistinct();
    DisableUnfolds(keys, locked, MenuText(locale), exe.path);
    var step := RegistrySet(keys, locked, false, locale, exe);
    if !Pinned(keys, locked, ShellKey) {
      DeleteTreeGone(keys, locked, ShellKey, ShellKey);
    }
  }

  /** An existing locked `command` subkey keeps the folder key: disable reports success and
      check still reports the menu installed. */
  lemma LockedCommandKeepsMenu(keys: Keys, locked: map<string, string>, locale: string, exe: ExePath)
    requires exe.Resolved? && CommandKey(ShellKey) in locked && CommandKey(ShellKey) in keys && ShellKey in keys
    ensures var step := RegistrySet(keys, locked, false, locale, exe);
      step.outcome.Success? && RegistryCheck(step.keys)
  {
    KeysDistinct();
    RegistryDisable(keys, locked, locale, exe);
  }

  /** An enable refused at the folder's `command` key leaves the folder key written, so check
      reports the menu installed; the `command` key was never created, so a later disable
      removes the folder key and check is false again. */
  lemma HalfWrittenMenuRemoved(keys: Keys, locked: map<string, string>, locale: string, exe: ExePath)
    requires exe.Resolved? && ShellKey !in locked && CommandKey(ShellKey) in locked
    requires forall k :: k in keys ==> !InTree(k, ShellKey)
    ensures var en := RegistrySet(keys, locked, true, locale, exe);
      en.outcome == Failure(locked[CommandKey(ShellKey)]) && RegistryCheck(en.keys)
      && !RegistryCheck(RegistrySet(en.keys, locked, false, locale, exe).keys)
  {
    KeysDistinct();
    var menuText := MenuText(locale);
    EnableUnfolds(keys, locked, menuText, exe.path);
    var en := RegistrySet(keys, locked, true, locale, exe);
    assert en.keys == keys[ShellKey := ValuesAt(keys, ShellKey)["" := menuText]["Icon" := exe.path]];
    assert !Pinned(en.keys, locked, ShellKey) by {
      forall l | l in locked && l in en.keys
        ensures !InTree(l, ShellKey)
      {
        assert l != ShellKey;
        assert l in keys;
      }
    }
    RegistryDisable(en.keys, locked, locale, exe);
  }

  /** Disabling twice leaves the state of disabling once; disabling when nothing of the menu is
      present succeeds and changes nothing. */
  lemma RegistryDisableIdempotent(keys: Keys, locked: map<string, string>, locale: string, exe: ExePath)
    requires exe.Resolved?
    ensures var once := RegistrySet(keys, locked, false, locale, exe);
      RegistrySet(once.keys, locked, false, locale, exe) == once
    ensures (forall k :: k in keys ==> !InTree(k, ShellKey) && !InTree(k, BackgroundKey))
      ==> RegistrySet(keys, locked, false, locale, exe) == RegStep(Success(()), keys)
  {
    var menuText := MenuText(locale);
    DisableUnfolds(keys, locked, menuText, exe.path);
    var once := RegistrySet(keys, locked, false, locale, exe);
    DisableUnfolds(once.keys, locked, menuText, exe.path);
    var a := DeleteTree(keys, locked, ShellKey);
    DeleteTreesCommute(a, locked, ShellKey, BackgroundKey);
    DeleteTreeTwice(a, locked, ShellKey);
    DeleteTreeTwice(DeleteTree(a, locked, ShellKey), locked, BackgroundKey);
    DeleteTreesCommute(DeleteTree(a, locked, BackgroundKey), locked, ShellKey, BackgroundKey);
    DeleteTreeTwice(DeleteTree(a, locked, BackgroundKey), locked, BackgroundKey);
  }

  /** Without a usable executable path, enable and disable alike fail and change nothing. */
  lemma RegistryNeedsExePath(keys: Keys, locked: map<string, string>, enable: bool, locale: string, exe: ExePath)
    requires !exe.Resolved?
    ensures RegistrySet(keys, locked, enable, locale, exe).outcome.Failure?
    ensures RegistrySet(keys, locked, enable, locale, exe).keys == keys
  {
  }

  /** The two subtrees are written without rollback: when the background key is locked, enable
      fails with its error and leaves the folder entry written, so check reports installed. */
  lemma RegistryPartialEnable(keys: Keys, locked: map<string, string>, locale: string, exe: ExePath)
    requires exe.Resolved?
    requires ShellKey !in locked && CommandKey(ShellKey) !in locked && BackgroundKey in locked
    ensures var step := RegistrySet(keys, locked, true, locale, exe);
      step.outcome == Failure(locked[BackgroundKey]) && RegistryCheck(step.keys)
  {
    KeysDistinct();
    EnableUnfolds(keys, locked, MenuText(locale), exe.path);
  }

  /** Keys outside the two subtrees are neither changed, nor removed, nor added. */
  lemma RegistryFrame(keys: Keys, locked: map<string, string>, enable: bool, locale: string, exe: ExePath, k: string)
    requires !InTree(k, ShellKey) && !InTree(k, BackgroundKey)
    ensures var step := RegistrySet(keys, locked, enable, locale, exe);
      (k in step.keys <==> k in keys) && (k in keys ==> step.keys[k] == keys[k])
  {
    KeysDistinct();
    if exe.Resolved? {
      if enable {
        EnableUnfolds(keys, locked, MenuText(locale), exe.path);
      } else {
        DisableUnfolds(keys, locked, MenuText(locale), exe.path);
      }
    }
  }

  // ---------------------------------------------------------------------------
  // Linux

  /** The path set_context_menu writes is the path check_context_menu tests. */
  lemma DesktopPathsAgree(home: string)
    ensures JoinPath(JoinPath(home, AppsSubdir), DesktopFileName) == JoinPath(home, AppsSubdir + "/" + DesktopFileName)
  {
    var apps := JoinPath(home, AppsSubdir);
    assert apps[|apps| - 1] == 's';
    if home == "" || home[|home| - 1] == '/' {
      assert apps + "/" + DesktopFileName == home + (AppsSubdir + "/" + DesktopFileName);
    } else {
      assert apps + "/" + DesktopFileName == home + "/" + (AppsSubdir + "/" + DesktopFileName);
    }
  }

  lemma DesktopFileNotAppsDir(home: string)
    ensures JoinPath(JoinPath(home, AppsSubdir), DesktopFileName) != JoinPath(home, AppsSubdir)
  {
    var apps := JoinPath(home, AppsSubdir);
    assert |JoinPath(apps, DesktopFileName)| > |apps|;
  }

  /** Linux enable succeeds exactly when HOME is set, the executable path is usable, the
      applications directory is there or can be made, and the desktop file can be created;
      the file then holds the desktop entry with mode 0o755, and check reports installed. */
  lemma LinuxEnable(fs: Fs, denied: map<string, string>, home: Option<string>, locale: string, exe: ExePath)
    requires WellFormed(fs)
    ensures var step := LinuxSet(fs, denied, home, true, locale, exe);
      step.outcome.Success? <==>
        (home.Some? && exe.Resolved?
         && var apps := JoinPath(home.value, AppsSubdir); var file := JoinPath(apps, DesktopFileName);
            (apps in fs.dirs || (apps !in fs.files && apps !in denied))
            && file !in denied && file !in fs.dirs)
    ensures var step := LinuxSet(fs, denied, home, true, locale, exe);
      step.outcome.Success? ==>
        var file := JoinPath(JoinPath(home.value, AppsSubdir), DesktopFileName);
        file in step.fs.files && step.fs.files[file] == FileNode(DesktopEntry(MenuText(locale), exe.path), ExecutableMode)
        && LinuxCheck(step.fs, home)
    ensures WellFormed(LinuxSet(fs, denied, home, true, locale, exe).fs)
  {
    if home.Some? {
      DesktopPathsAgree(home.value);
      DesktopFileNotAppsDir(home.value);
    }
  }

  /** Enabling twice in a row does not fail the second time and leaves the state of enabling once. */
  lemma LinuxEnableIdempotent(fs: Fs, denied: map<string, string>, home: Option<string>, locale: string, exe: ExePath)
    requires WellFormed(fs)
    requires LinuxSet(fs, denied, home, true, locale, exe).outcome.Success?
    ensures var once := LinuxSet(fs, denied, home, true, locale, exe);
      LinuxSet(once.fs, denied, home, true, locale, exe) == once
  {
    DesktopFileNotAppsDir(home.value);
    var once := LinuxSet(fs, denied, home, true, locale, exe);
    var file := JoinPath(JoinPath(home.value, AppsSubdir), DesktopFileName);
    assert once.fs.files[file := once.fs.files[file]] == once.fs.files;
  }

  /** Linux disable: removing an absent file succeeds and changes nothing; a successful disable
      leaves check reporting not installed; disabling again changes nothing more. */
  lemma LinuxDisable(fs: Fs, denied: map<string, string>, home: Option<string>, locale: string, exe: ExePath)
    requires WellFormed(fs)
    requires home.Some?
    ensures var step := LinuxSet(fs, denied, home, false, locale, exe);
      (!LinuxCheck(fs, home) ==> step == FsStep(Success(()), fs))
      && (step.outcome.Success? ==> !LinuxCheck(step.fs, home) && LinuxSet(step.fs, denied, home, false, locale, exe) == step)
      && WellFormed(step.fs)
  {
    DesktopPathsAgree(home.value);
  }

  /** Without HOME, set fails with "HOME not set" and check reports not installed. */
  lemma LinuxNeedsHome(fs: Fs, denied: map<string, string>, enable: bool, locale: string, exe: ExePath)
    ensures LinuxSet(fs, denied, None, enable, locale, exe) == FsStep(Failure("HOME not set"), fs)
    ensures !LinuxCheck(fs, None)
  {
  }

  lemma {:induction false} SplitLines(lines: seq<string>)
    requires forall i :: 0 <= i < |lines| ==> '\n' !in lines[i]
    ensures Text.Split(Lines(lines), '\n') == lines + [""]
  {
    if lines == [] {
    } else {
      SplitLines(lines[1..]);
      Text.SplitAt(lines[0], '\n', Lines(lines[1..]));
      Text.SplitNoSep(lines[0], '\n');
      assert lines[0] + "\n" + Lines(lines[1..]) == lines[0] + ['\n'] + Lines(lines[1..]);
      assert lines == [lines[0]] + lines[1..];
    }
  }

  /** The desktop entry is exactly seven lines: the group header, the type, the label, the command
      running the executable on the file, the icon, the hidden flag and the folder MIME type. */
  lemma DesktopEntryLines(menuText: string, exe: string)
    requires '\n' !in menuText && '\n' !in exe
    ensures Text.Split(DesktopEntry(menuText, exe), '\n') ==
      ["[Desktop Entry]", "Type=Application", "Name=" + menuText, "Exec=\"" + exe + "\" \"%f\"",
       "Icon=folder-open", "NoDisplay=true", "MimeType=inode/directory;", ""]
  {
    var lines := DesktopLines(menuText, exe);
    assert '\n' !in lines[2] && '\n' !in lines[3];
    SplitLines(lines);
  }

  /** Enabling with an English locale on a home where nothing exists yet and nothing is denied
      creates the applications directory and the desktop file with the English label. */
  lemma LinuxFreshEnable(home: string, exe: string)
    ensures var apps := JoinPath(home, AppsSubdir);
      LinuxSet(Fs({}, map[]), map[], Some(home), true, "en", Resolved(exe))
      == FsStep(Success(()), Fs({apps}, map[JoinPath(apps, DesktopFileName) :=
                                          FileNode(DesktopEntry("Open in Project & Node Manager", exe), ExecutableMode)]))
  {
    DesktopFileNotAppsDir(home);
    assert MenuText("en") == EnLabel;
  }

  /** With HOME=/tmp/home, the desktop file is /tmp/home/.local/share/applications/fp-node-manager-context.desktop. */
  lemma DesktopFileUnderTmpHome()
    ensures JoinPath(JoinPath("/tmp/home", AppsSubdir), DesktopFileName) == "/tmp/home/" + AppsSubdir + "/" + DesktopFileName
  {
    var home := "/tmp/home";
    assert home[|home| - 1] == 'e';
    var apps := home + "/" + AppsSubdir;
    assert apps[|apps| - 1] == 's';
  }

  // ---------------------------------------------------------------------------
  // Every OS family

  /** The integration is supported exactly on the OS families where enabling can succeed. */
  lemma SupportedIffEnableCanSucceed(os: OsFamily)
    ensures IsContextMenuSupported(os) <==> exists m :: SetOn(os, m, true, "en").outcome.Success?
  {
    var m := Machine(map[], map[], Fs({}, map[]), map[], Some("h"), Resolved("e"));
    if os == Windows {
      RegistryEnable(m.keys, m.locked, "en", m.exe);
      assert SetOn(os, m, true, "en").outcome.Success?;
    } else if os == Linux {
      LinuxEnable(m.fs, m.denied, m.home, "en", m.exe);
      assert SetOn(os, m, true, "en").outcome.Success?;
    } else {
      assert forall m :: SetOn(os, m, true, "en").outcome.Failure?;
    }
  }

  /** Where there is no mechanism, set always fails with the guidance text and changes nothing, and check is false. */
  lemma UnsupportedRefuses(os: OsFamily, m: Machine, enable: bool, locale: string)
    requires !IsContextMenuSupported(os)
    ensures SetOn(os, m, enable, locale) == MachineStep(Failure(Guidance), m)
    ensures !CheckOn(os, m)
  {
  }

  /** A successful enable is seen by check. */
  lemma EnableThenCheck(os: OsFamily, m: Machine, locale: string)
    requires WellFormed(m.fs)
    requires SetOn(os, m, true, locale).outcome.Success?
    ensures CheckOn(os, SetOn(os, m, true, locale).machine)
  {
    if os == Windows {
      RegistryEnable(m.keys, m.locked, locale, m.exe);
    } else if os == Linux {
      LinuxEnable(m.fs, m.denied, m.home, locale, m.exe);
    }
  }

  /** A successful disable is seen by check, unless on Windows an existing locked key in the
      folder tree kept the folder key; then check reports what it reported before. */
  lemma DisableThenCheck(os: OsFamily, m: Machine, locale: string)
    requires WellFormed(m.fs)
    requires SetOn(os, m, false, locale).outcome.Success?
    ensures !(os == Windows && Pinned(m.keys, m.locked, ShellKey)) ==> !CheckOn(os, SetOn(os, m, false, locale).machine)
    ensures os == Windows && Pinned(m.keys, m.locked, ShellKey)
      ==> CheckOn(os, SetOn(os, m, false, locale).machine) == CheckOn(os, m)
  {
    if os == Windows {
      RegistryDisable(m.keys, m.locked, locale, m.exe);
    } else if os == Linux {
      LinuxDisable(m.fs, m.denied, m.home, locale, m.exe);
    }
  }

  /** Enabling a second time succeeds and changes nothing; so does disabling a second time. */
  lemma SetIdempotent(os: OsFamily, m: Machine, enable: bool, locale: string)
    requires WellFormed(m.fs)
    requires SetOn(os, m, enable, locale).outcome.Success?
    ensures var once := SetOn(os, m, enable, locale);
      SetOn(os, once.machine, enable, locale) == once
  {
    if os == Windows {
      if enable {
        RegistryEnableIdempotent(m.keys, m.locked, locale, m.exe);
      } else {
        RegistryDisableIdempotent(m.keys, m.locked, locale, m.exe);
      }
    } else if os == Linux {
      if enable {
        LinuxEnableIdempotent(m.fs, m.denied, m.home, locale, m.exe);
      } else {
        LinuxDisable(m.fs, m.denied, m.home, locale, m.exe);
      }
    }
  }
}
