/**
 * The back end's project commands: `scan_project`, which describes a Node project from its
 * package.json and lock files, and `read_dir`, which lists a directory. The file system is
 * given as already-read values: which names exist in the project directory, what reading and
 * parsing package.json gave, and what each directory entry reported.
 */
module ProjectScan {
  import opened Wrappers
  import Text

  /** The two package.json fields the scan uses, as serde reads them. */
  datatype PackageJson = PackageJson(name: Option<string>, scripts: Option<map<string, string>>)

  /** What reading package.json and parsing it as JSON gave. */
  datatype ManifestRead =
    | Unreadable(error: string)
    | Malformed(error: string)
    | Parsed(pkg: PackageJson)

  /** A project directory: the names that exist in it, and its package.json when read. */
  datatype ProjectDir = ProjectDir(present: set<string>, manifest: ManifestRead)

  /** The descriptor the front end shows. */
  datatype ProjectInfo = ProjectInfo(name: string, scripts: seq<string>, path: string, packageManager: Option<string>)

  /** The command's outcome. `Panicked` is the `unwrap` on a path without a last component,
      reached only when package.json has no name. */
  datatype Scan = Scanned(info: ProjectInfo) | ScanError(message: string) | Panicked

  const ManifestName: string := "package.json"
  const ManifestMissing: string := "package.json not found"

  // ---------------------------------------------------------------------------
  // The last component of a path

  /** The components `Path::components` yields for the pieces between separators: empty pieces
      (repeated or trailing separators, a leading root) and `.` pieces are not components. */
  function Components(pieces: seq<string>): (cs: seq<string>)
    ensures forall i :: 0 <= i < |cs| ==> cs[i] != "" && cs[i] != "."
    ensures forall i :: 0 <= i < |cs| ==> cs[i] in pieces
  {
    if pieces == [] then []
    else if pieces[0] == "" || pieces[0] == "." then Components(pieces[1..])
    else [pieces[0]] + Components(pieces[1..])
  }

  /** `Path::file_name` for `/`-separated paths: the last component, unless it is `..` or there is none. */
  function FileName(path: string): (r: Option<string>)
    ensures r.Some? ==> r.value != "" && r.value != "." && r.value != ".." && '/' !in r.value
  {
    var cs := Components(Text.Split(path, '/'));
    if cs == [] || cs[|cs| - 1] == ".." then None else Some(cs[|cs| - 1])
  }

  lemma {:induction false} ComponentsAppend(a: seq<string>, b: seq<string>)
    ensures Components(a + b) == Components(a) + Components(b)
  {
    if a == [] {
      assert a + b == b;
    } else {
      var ab := a + b;
      assert ab[0] == a[0] && ab[1..] == a[1..] + b;
      ComponentsAppend(a[1..], b);
      if a[0] != "" && a[0] != "." {
        assert Components(ab) == [a[0]] + Components(a[1..] + b);
        assert Components(a) == [a[0]] + Components(a[1..]);
      }
    }
  }

  /** The name of an entry of a directory is the last component of the entry's path. */
  lemma FileNameOfChild(dir: string, name: string)
    requires name != "" && name != "." && name != ".." && '/' !in name
    ensures FileName(dir + "/" + name) == Some(name)
  {
    Text.SplitAt(dir, '/', name);
    Text.SplitNoSep(name, '/');
    assert dir + "/" + name == dir + ['/'] + name;
    ComponentsAppend(Text.Split(dir, '/'), [name]);
    assert Components([name]) == [name] by {
      assert [name][1..] == [];
    }
  }

  /** A trailing separator does not change the last component. */
  lemma FileNameTrailingSlash(path: string)
    ensures FileName(path + "/") == FileName(path)
  {
    Text.SplitAt(path, '/', "");
    assert path + "/" == path + ['/'] + "";
    ComponentsAppend(Text.Split(path, '/'), [""]);
    assert Components([""]) == [] by {
      assert [""][1..] == [];
    }
    assert Components(Text.Split(path, '/')) + [] == Components(Text.Split(path, '/'));
  }

  /** The root, the current directory and a path ending in `..` have no file name. */
  lemma FileNameMissing()
    ensures FileName("/") == None && FileName(".") == None && FileName("a/..") == None
  {
    assert Text.Split("/", '/') == ["", ""] by {
      assert "/"[1..] == "";
    }
    assert Components(["", ""]) == [] by {
      assert ["", ""][1..] == [""] && [""][1..] == [];
    }
    assert Text.Split(".", '/') == ["."] by {
      Text.SplitNoSep(".", '/');
    }
    assert Components(["."]) == [] by {
      assert ["."][1..] == [];
    }
    assert Text.Split("a/..", '/') == ["a", ".."] by {
      Text.SplitAt("a", '/', "..");
      Text.SplitNoSep("a", '/');
      Text.SplitNoSep("..", '/');
      assert "a" + ['/'] + ".." == "a/..";
    }
    assert Components(["a", ".."]) == ["a", ".."] by {
      assert ["a", ".."][1..] == [".."] && [".."][1..] == [];
    }
  }

  // ---------------------------------------------------------------------------
  // scan_project

  /** The lock file present with the highest precedence names the package manager. */
  function PackageManager(present: set<string>): (r: Option<string>)
    ensures r.None? <==> "pnpm-lock.yaml" !in present && "yarn.lock" !in present && "package-lock.json" !in present
    ensures r.Some? ==> r.value in {"pnpm", "yarn", "npm"}
  {
    if "pnpm-lock.yaml" in present then Some("pnpm")
    else if "yarn.lock" in present then Some("yarn")
    else if "package-lock.json" in present then Some("npm")
    else None
  }

  /** A lock file of higher precedence wins however the other lock files are present. */
  lemma LockFilePrecedence(present: set<string>, others: set<string>)
    ensures "pnpm-lock.yaml" in present ==> PackageManager(present + others) == Some("pnpm")
    ensures "yarn.lock" in present && "pnpm-lock.yaml" !in present + others
      ==> PackageManager(present + others) == Some("yarn")
    ensures "package-lock.json" in present && "pnpm-lock.yaml" !in present && "yarn.lock" !in present
      ==> PackageManager(present) == Some("npm")
  {
  }

  /** The script names package.json declares; none when it has no scripts object. */
  function ScriptNames(pkg: PackageJson): set<string> {
    if pkg.scripts.Some? then pkg.scripts.value.Keys else {}
  }

  /** `info` is the descriptor of the project at `path` whose parsed package.json is `pkg`:
      the script names exactly once each and in ascending order, the declared name or else the
      directory's last component, the path as given, and the package manager of the lock files. */
  ghost predicate Describes(info: ProjectInfo, path: string, dir: ProjectDir, pkg: PackageJson) {
    && Text.Sorted(info.scripts)
    && multiset(info.scripts) == multiset(ScriptNames(pkg))
    && (if pkg.name.Some? then info.name == pkg.name.value else FileName(path) == Some(info.name))
    && info.path == path
    && info.packageManager == PackageManager(dir.present)
  }

  /** The keys of `m` in the order the map's iteration yields them, which is any order. */
  method CollectKeys(m: map<string, string>) returns (keys: seq<string>)
    ensures multiset(keys) == multiset(m.Keys)
  {
    keys := [];
    var remaining := m.Keys;
    while remaining != {}
      invariant remaining <= m.Keys
      invariant multiset(keys) + multiset(remaining) == multiset(m.Keys)
      decreases |remaining|
    {
      var k :| k in remaining;
      assert multiset(remaining) == multiset(remaining - {k}) + multiset{k};
      keys := keys + [k];
      remaining := remaining - {k};
    }
  }

  /** scan_project: package.json must exist, then be read and parsed; the descriptor follows. */
  method ScanProject(path: string, dir: ProjectDir) returns (r: Scan)
    ensures ManifestName !in dir.present ==> r == ScanError(ManifestMissing)
    ensures ManifestName in dir.present && !dir.manifest.Parsed? ==> r == ScanError(dir.manifest.error)
    ensures ManifestName in dir.present && dir.manifest.Parsed? ==>
      var pkg := dir.manifest.pkg;
      if pkg.name.None? && FileName(path).None? then r == Panicked
      else r.Scanned? && Describes(r.info, path, dir, pkg)
  {
    if ManifestName !in dir.present {
      return ScanError(ManifestMissing);
    }
    var pkg: PackageJson;
    match dir.manifest {
      case Unreadable(e) => return ScanError(e);
      case Malformed(e) => return ScanError(e);
      case Parsed(p) => pkg := p;
    }
    var keys: seq<string> := [];
    if pkg.scripts.Some? {
      keys := CollectKeys(pkg.scripts.value);
    }
    var scripts := Text.Sort(keys);
    var name: string;
    if pkg.name.Some? {
      name := pkg.name.value;
    } else {
      var last := FileName(path);
      if last.None? {
        return Panicked;
      }
      name := last.value;
    }
    var packageManager: Option<string> := None;
    if "pnpm-lock.yaml" in dir.present {
      packageManager := Some("pnpm");
    } else if "yarn.lock" in dir.present {
      packageManager := Some("yarn");
    } else if "package-lock.json" in dir.present {
      packageManager := Some("npm");
    }
    r := Scanned(ProjectInfo(name, scripts, path, packageManager));
  }

  /** The descriptor does not depend on the order the script map is iterated in: two
      descriptors of the same project are the same value. */
  lemma DescriptorUnique(a: ProjectInfo, b: ProjectInfo, path: string, dir: ProjectDir, pkg: PackageJson)
    requires Describes(a, path, dir, pkg) && Describes(b, path, dir, pkg)
    ensures a == b
  {
    Text.SortedUnique(a.scripts, b.scripts);
  }

  /** A script name is listed exactly when package.json declares it. */
  lemma ScriptListed(info: ProjectInfo, path: string, dir: ProjectDir, pkg: PackageJson, s: string)
    requires Describes(info, path, dir, pkg)
    ensures s in info.scripts <==> s in ScriptNames(pkg)
    ensures multiset(info.scripts)[s] <= 1
  {
    assert s in info.scripts <==> s in multiset(info.scripts);
  }

  // ---------------------------------------------------------------------------
  // read_dir

  /** What iterating a directory gave for one entry: an error, or a name with the entry's file
      type, `None` when reading the file type failed, else whether it is a directory. */
  datatype EntryRead = EntryError | Entry(name: string, isDir: Option<bool>)

  /** What opening a directory gave. */
  datatype DirListing = CannotOpen(error: string) | Opened(entries: seq<EntryRead>)

  datatype DirEntry = DirEntry(name: string, isDirectory: bool)

  /** The entries read_dir reports: those with a readable file type, in iteration order. */
  function Listed(entries: seq<EntryRead>): (r: seq<DirEntry>)
    ensures |r| <= |entries|
  {
    if entries == [] then []
    else
      var rest := Listed(entries[..|entries| - 1]);
      var last := entries[|entries| - 1];
      if last.Entry? && last.isDir.Some? then rest + [DirEntry(last.name, last.isDir.value)] else rest
  }

  /** read_dir: fails only when the directory cannot be opened. */
  method ReadDir(listing: DirListing) returns (r: Result<seq<DirEntry>>)
    ensures listing.CannotOpen? ==> r == Failure(listing.error)
    ensures listing.Opened? ==> r == Success(Listed(listing.entries))
  {
    if listing.CannotOpen? {
      return Failure(listing.error);
    }
    var entries := listing.entries;
    var listed: seq<DirEntry> := [];
    var i := 0;
    while i < |entries|
      invariant 0 <= i <= |entries|
      invariant listed == Listed(entries[..i])
    {
      assert entries[..i + 1][..i] == entries[..i];
      var e := entries[i];
      if e.Entry? && e.isDir.Some? {
        listed := listed + [DirEntry(e.name, e.isDir.value)];
      }
      i := i + 1;
    }
    assert entries[..i] == entries;
    r := Success(listed);
  }

  /** Listing keeps the iteration order: the entries of a concatenation are listed one part after the other. */
  lemma {:induction false} ListedAppend(a: seq<EntryRead>, b: seq<EntryRead>)
    ensures Listed(a + b) == Listed(a) + Listed(b)
    decreases |b|
  {
    if b == [] {
      assert a + b == a;
    } else {
      var b' := b[..|b| - 1];
      ListedAppend(a, b');
      assert (a + b)[..|a + b| - 1] == a + b';
      assert (a + b)[|a + b| - 1] == b[|b| - 1];
    }
  }

  /** Each entry with a readable file type yields one entry with its name and kind; every other entry yields none. */
  lemma ListedOne(e: EntryRead)
    ensures Listed([e]) == if e.Entry? && e.isDir.Some? then [DirEntry(e.name, e.isDir.value)] else []
  {
    assert [e][..0] == [];
  }

  /** Every reported entry comes from an entry of the directory with that name and file type. */
  lemma {:induction false} ListedFromEntries(entries: seq<EntryRead>, d: DirEntry)
    requires d in Listed(entries)
    ensures Entry(d.name, Some(d.isDirectory)) in entries
  {
    var last := entries[|entries| - 1];
    var init := entries[..|entries| - 1];
    if d in Listed(init) {
      ListedFromEntries(init, d);
      assert Entry(d.name, Some(d.isDirectory)) in init;
      assert entries == init + [last];
    } else {
      assert d == DirEntry(last.name, last.isDir.value);
    }
  }
}
