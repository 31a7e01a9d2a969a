/**
 * The front end's project store: the list of projects, per-run running flags and logs, the
 * selected project, and the buffer that batches process output into the logs once per frame.
 * The back end's process runner and scanner, and the node store's list of installed versions,
 * come in as parameters; the animation-frame timer is a flag saying a flush is pending.
 */
module ProjectStore {
  import opened Wrappers

  /** The fields of a project the store reads; the rest of the record is carried along untouched. */
  datatype Project = Project(id: string, name: string, path: string, scripts: seq<string>,
                             nodeVersion: Option<string>, packageManager: Option<string>)

  /** An installed Node version as the node store lists it. */
  datatype NodeVersion = NodeVersion(version: string, path: string, source: string)

  /** The number of newest log lines a flush keeps. */
  const MaxLogLines: nat := 2000
  const ExitMarker: string := "[Process exited]"

  /** The value at `k`, or the empty list when there is none. */
  function Get(m: map<string, seq<string>>, k: string): seq<string> {
    if k in m then m[k] else []
  }

  /** `s.slice(-n)` applied when `s` is longer than `n`: the newest `n` lines. */
  function KeepNewest(s: seq<string>, n: nat): (r: seq<string>)
    ensures |r| == if |s| <= n then |s| else n
    ensures r == s[|s| - |r|..]
  {
    if |s| <= n then s else s[|s| - n..]
  }

  // ---------------------------------------------------------------------------
  // Log buffering

  /** One id's log after a flush: its buffered lines appended, then cut to the newest lines. */
  function FlushedLog(logs: map<string, seq<string>>, buffer: map<string, seq<string>>, id: string): seq<string>
    requires id in logs || (id in buffer && buffer[id] != [])
  {
    if id in buffer && buffer[id] != [] then KeepNewest(Get(logs, id) + buffer[id], MaxLogLines) else logs[id]
  }

  /** The ids a flush gives a log: those that had one and those with buffered lines. */
  function FlushedIds(logs: map<string, seq<string>>, buffer: map<string, seq<string>>): set<string> {
    logs.Keys + set id | id in buffer && buffer[id] != []
  }

  /** All logs after a flush. */
  function Flushed(logs: map<string, seq<string>>, buffer: map<string, seq<string>>): map<string, seq<string>> {
    map id | id in FlushedIds(logs, buffer) :: FlushedLog(logs, buffer, id)
  }

  /** The buffer after a flush: every id it held, with nothing in it. */
  function Drained(buffer: map<string, seq<string>>): (r: map<string, seq<string>>)
    ensures r.Keys == buffer.Keys
    ensures forall id :: id in r ==> r[id] == []
  {
    map id | id in buffer :: []
  }

  /** A flush appends each id's buffered lines after its log in arrival order and keeps the newest
      `MaxLogLines`; when nothing is cut, nothing is lost. Ids with nothing buffered keep their log. */
  lemma FlushAppends(logs: map<string, seq<string>>, buffer: map<string, seq<string>>, id: string)
    ensures id in buffer && buffer[id] != [] ==>
      var all := Get(logs, id) + buffer[id];
      id in Flushed(logs, buffer)
      && Flushed(logs, buffer)[id] == all[|all| - |Flushed(logs, buffer)[id]|..]
      && |Flushed(logs, buffer)[id]| == (if |all| <= MaxLogLines then |all| else MaxLogLines)
      && (|all| <= MaxLogLines ==> Flushed(logs, buffer)[id] == all)
    ensures !(id in buffer && buffer[id] != []) ==>
      (id in Flushed(logs, buffer) <==> id in logs) && (id in logs ==> Flushed(logs, buffer)[id] == logs[id])
  {
    if id in buffer && buffer[id] != [] {
      assert id in FlushedIds(logs, buffer);
    }
  }

  /** A flush never leaves a log longer than `MaxLogLines` among those it touched, and the last
      buffered line is the last log line. */
  lemma FlushEndsWithNewest(logs: map<string, seq<string>>, buffer: map<string, seq<string>>, id: string)
    requires id in buffer && buffer[id] != []
    ensures id in Flushed(logs, buffer)
    ensures |Flushed(logs, buffer)[id]| <= MaxLogLines
    ensures var f := Flushed(logs, buffer)[id]; f[|f| - 1] == buffer[id][|buffer[id]| - 1]
  {
    FlushAppends(logs, buffer, id);
  }

  /** The ids among `done` whose buffer holds lines. */
  function PendingIn(buffer: map<string, seq<string>>, done: set<string>): set<string> {
    set k | k in done && k in buffer && buffer[k] != []
  }

  /** One id's log once the ids in `done` have been flushed. */
  function PartlyFlushedLog(logs: map<string, seq<string>>, buffer: map<string, seq<string>>, done: set<string>, k: string): seq<string>
    requires k in logs || k in PendingIn(buffer, done)
  {
    if k in PendingIn(buffer, done) then KeepNewest(Get(logs, k) + buffer[k], MaxLogLines) else logs[k]
  }

  /** The logs once the ids in `done` have been flushed. */
  function PartlyFlushed(logs: map<string, seq<string>>, buffer: map<string, seq<string>>, done: set<string>): map<string, seq<string>> {
    map k | k in logs.Keys + PendingIn(buffer, done) :: PartlyFlushedLog(logs, buffer, done, k)
  }

  /** The buffer once the ids in `done` have been flushed. */
  function PartlyDrained(buffer: map<string, seq<string>>, done: set<string>): map<string, seq<string>> {
    map k | k in buffer :: if k in done then [] else buffer[k]
  }

  lemma FlushStepLines(logs: map<string, seq<string>>, buffer: map<string, seq<string>>, done: set<string>, id: string)
    requires id in buffer && id !in done && buffer[id] != []
    ensures PartlyFlushed(logs, buffer, done + {id})
         == PartlyFlushed(logs, buffer, done)[id := KeepNewest(Get(PartlyFlushed(logs, buffer, done), id) + buffer[id], MaxLogLines)]
  {
    var before := PartlyFlushed(logs, buffer, done);
    var after := PartlyFlushed(logs, buffer, done + {id});
    var expected := before[id := KeepNewest(Get(before, id) + buffer[id], MaxLogLines)];
    assert Get(before, id) == Get(logs, id);
    assert PendingIn(buffer, done + {id}) == PendingIn(buffer, done) + {id};
    assert after.Keys == expected.Keys;
    forall k | k in after
      ensures after[k] == expected[k]
    {
      if k != id {
        assert k in PendingIn(buffer, done + {id}) <==> k in PendingIn(buffer, done);
      }
    }
  }

  lemma FlushStepEmpty(logs: map<string, seq<string>>, buffer: map<string, seq<string>>, done: set<string>, id: string)
    requires id in buffer && id !in done && buffer[id] == []
    ensures PartlyFlushed(logs, buffer, done + {id}) == PartlyFlushed(logs, buffer, done)
    ensures PartlyDrained(buffer, done + {id}) == PartlyDrained(buffer, done)
  {
    assert PendingIn(buffer, done + {id}) == PendingIn(buffer, done);
    var a := PartlyFlushed(logs, buffer, done + {id});
    var b := PartlyFlushed(logs, buffer, done);
    forall k | k in a
      ensures a[k] == b[k]
    {
    }
  }

  lemma FlushStepBuffer(buffer: map<string, seq<string>>, done: set<string>, id: string)
    requires id in buffer && id !in done
    ensures PartlyDrained(buffer, done + {id}) == PartlyDrained(buffer, done)[id := []]
  {
  }

  lemma FlushAll(logs: map<string, seq<string>>, buffer: map<string, seq<string>>)
    ensures PartlyFlushed(logs, buffer, buffer.Keys) == Flushed(logs, buffer)
    ensures PartlyDrained(buffer, buffer.Keys) == Drained(buffer)
    ensures PartlyFlushed(logs, buffer, {}) == logs && PartlyDrained(buffer, {}) == buffer
  {
    FlushAllLogs(logs, buffer);
    FlushNone(logs, buffer);
  }

  lemma FlushAllLogs(logs: map<string, seq<string>>, buffer: map<string, seq<string>>)
    ensures PartlyFlushed(logs, buffer, buffer.Keys) == Flushed(logs, buffer)
  {
    var a := PartlyFlushed(logs, buffer, buffer.Keys);
    var b := Flushed(logs, buffer);
    assert PendingIn(buffer, buffer.Keys) == set id | id in buffer && buffer[id] != [];
    assert a.Keys == b.Keys;
    forall k | k in a
      ensures a[k] == b[k]
    {
      assert k in PendingIn(buffer, buffer.Keys) <==> k in buffer && buffer[k] != [];
    }
  }

  lemma FlushNone(logs: map<string, seq<string>>, buffer: map<string, seq<string>>)
    ensures PartlyFlushed(logs, buffer, {}) == logs && PartlyDrained(buffer, {}) == buffer
  {
    assert PendingIn(buffer, {}) == {};
    var a := PartlyFlushed(logs, buffer, {});
    assert a.Keys == logs.Keys;
    forall k | k in a
      ensures a[k] == logs[k]
    {
    }
  }

  /** A second flush right after a first changes nothing. */
  lemma FlushTwice(logs: map<string, seq<string>>, buffer: map<string, seq<string>>)
    ensures Flushed(Flushed(logs, buffer), Drained(buffer)) == Flushed(logs, buffer)
  {
    var once := Flushed(logs, buffer);
    assert FlushedIds(once, Drained(buffer)) == once.Keys;
  }

  /** A buffered line is always covered by a pending flush. */
  ghost predicate Covered(buffer: map<string, seq<string>>, flushPending: bool) {
    forall id :: id in buffer && buffer[id] != [] ==> flushPending
  }

  // ---------------------------------------------------------------------------
  // The project list

  /** `findIndex` by id: the first position holding a project with that id. */
  function IndexOf(projects: seq<Project>, id: string): (r: Option<nat>)
    ensures r.Some? ==> r.value < |projects| && projects[r.value].id == id
                        && forall j :: 0 <= j < r.value ==> projects[j].id != id
    ensures r.None? <==> forall j :: 0 <= j < |projects| ==> projects[j].id != id
  {
    if projects == [] then None
    else if projects[0].id == id then Some(0)
    else match IndexOf(projects[1..], id)
      case None => None
      case Some(i) => Some(i + 1)
  }

  /** updateProject: the first project with the same id is replaced, all else is kept. */
  function Updated(projects: seq<Project>, p: Project): (r: seq<Project>)
    ensures |r| == |projects|
    ensures IndexOf(projects, p.id).None? ==> r == projects
    ensures IndexOf(projects, p.id).Some? ==>
      var i := IndexOf(projects, p.id).value;
      r[i] == p && forall j :: 0 <= j < |r| && j != i ==> r[j] == projects[j]
  {
    match IndexOf(projects, p.id)
    case None => projects
    case Some(i) => projects[i := p]
  }

  /** removeProject's filter: the projects whose id differs, in their order. */
  function Without(projects: seq<Project>, id: string): seq<Project> {
    if projects == [] then []
    else
      var rest := Without(projects[..|projects| - 1], id);
      var last := projects[|projects| - 1];
      if last.id == id then rest else rest + [last]
  }

  /** The filter keeps the order: filtering a concatenation filters each part. */
  lemma {:induction false} WithoutAppend(a: seq<Project>, b: seq<Project>, id: string)
    ensures Without(a + b, id) == Without(a, id) + Without(b, id)
    decreases |b|
  {
    if b == [] {
      assert a + b == a;
    } else {
      var b' := b[..|b| - 1];
      WithoutAppend(a, b', id);
      assert (a + b)[..|a + b| - 1] == a + b';
      assert (a + b)[|a + b| - 1] == b[|b| - 1];
    }
  }

  /** A project stays exactly when its id differs from the removed one. */
  lemma {:induction false} WithoutKeeps(projects: seq<Project>, id: string, q: Project)
    ensures q in Without(projects, id) <==> q in projects && q.id != id
  {
    if projects != [] {
      var init := projects[..|projects| - 1];
      WithoutKeeps(init, id, q);
      assert projects == init + [projects[|projects| - 1]];
    }
  }

  /** Removing an id that is absent keeps the list. */
  lemma {:induction false} WithoutAbsent(projects: seq<Project>, id: string)
    requires forall j :: 0 <= j < |projects| ==> projects[j].id != id
    ensures Without(projects, id) == projects
  {
    if projects != [] {
      var init := projects[..|projects| - 1];
      WithoutAbsent(init, id);
      assert projects == init + [projects[|projects| - 1]];
    }
  }

  // ---------------------------------------------------------------------------
  // Running a script

  /** The key of a run's flag and log: project id and script joined by a colon. */
  function RunId(projectId: string, script: string): string {
    projectId + ":" + script
  }

  /** A run counts as running only when its flag is present and true. */
  predicate IsRunning(runningStatus: map<string, bool>, runId: string) {
    runId in runningStatus && runningStatus[runId]
  }

  /** What `versions.find` looks for: a version string, or a source. */
  datatype Query = WithVersion(version: string) | WithSource(source: string)

  predicate Answers(v: NodeVersion, q: Query) {
    match q
    case WithVersion(version) => v.version == version
    case WithSource(source) => v.source == source
  }

  /** The first installed version answering `q`. */
  function FindVersion(versions: seq<NodeVersion>, q: Query): (r: Option<NodeVersion>)
    ensures r.Some? ==> r.value in versions && Answers(r.value, q)
    ensures r.None? <==> forall i :: 0 <= i < |versions| ==> !Answers(versions[i], q)
  {
    if versions == [] then None
    else if Answers(versions[0], q) then Some(versions[0])
    else FindVersion(versions[1..], q)
  }

  /** The node path chosen before the "System Default" placeholder is removed. */
  function ChosenPath(nodeVersion: Option<string>, versions: seq<NodeVersion>): string {
    if nodeVersion.None? || nodeVersion.value == "" then ""
    else
      var exact := FindVersion(versions, WithVersion(nodeVersion.value));
      if exact.Some? then exact.value.path
      else if nodeVersion.value == "默认" || nodeVersion.value == "Default" then
        var system := FindVersion(versions, WithSource("system"));
        if system.Some? then system.value.path else ""
      else ""
  }

  /** The node path a run uses, "" meaning the system's own node. */
  function ResolveNodePath(nodeVersion: Option<string>, versions: seq<NodeVersion>): (r: string)
    ensures r != "System Default"
    ensures r == "" || exists i :: 0 <= i < |versions| && versions[i].path == r
  {
    var chosen := ChosenPath(nodeVersion, versions);
    if chosen == "System Default" then "" else chosen
  }

  /** An installed version equal to the project's choice wins, taking the first in list order;
      a winner whose path is the "System Default" placeholder means the system's own node. */
  lemma ExactVersionWins(nodeVersion: string, versions: seq<NodeVersion>, i: nat)
    requires nodeVersion != "" && i < |versions| && versions[i].version == nodeVersion
    requires forall j :: 0 <= j < i ==> versions[j].version != nodeVersion
    ensures ResolveNodePath(Some(nodeVersion), versions)
         == (if versions[i].path == "System Default" then "" else versions[i].path)
  {
    FirstFound(versions, WithVersion(nodeVersion), i);
  }

  lemma {:induction false} FirstFound(versions: seq<NodeVersion>, q: Query, i: nat)
    requires i < |versions| && Answers(versions[i], q)
    requires forall j :: 0 <= j < i ==> !Answers(versions[j], q)
    ensures FindVersion(versions, q) == Some(versions[i])
  {
    if i > 0 {
      FirstFound(versions[1..], q, i - 1);
    }
  }

  /** Without an exact match, "Default" and "默认" select the first system node; with no system
      node, and for every other unmatched choice, the path is empty. */
  lemma DefaultMeansSystem(nodeVersion: string, versions: seq<NodeVersion>)
    requires nodeVersion != ""
    requires forall j :: 0 <= j < |versions| ==> versions[j].version != nodeVersion
    ensures var r := ResolveNodePath(Some(nodeVersion), versions);
      if nodeVersion == "默认" || nodeVersion == "Default" then
        var system := FindVersion(versions, WithSource("system"));
        r == (if system.Some? && system.value.path != "System Default" then system.value.path else "")
      else r == ""
  {
    var exact := FindVersion(versions, WithVersion(nodeVersion));
    assert exact.None?;
  }

  /** Without a chosen version the run uses the system's node. */
  lemma NoChoiceNoPath(versions: seq<NodeVersion>)
    ensures ResolveNodePath(None, versions) == "" && ResolveNodePath(Some(""), versions) == ""
  {
  }

  /** JavaScript's `a || b` on strings: `b` when `a` is empty. */
  function OrElse(a: string, b: string): string {
    if a == "" then b else a
  }

  /** The three runner lines a run's fresh log begins with. */
  const RunnerTag: string := "[Runner] "

  function RunnerLines(script: string, nodeVersion: Option<string>, nodePath: string): seq<string> {
    [RunnerTag + "Starting script: " + script,
     RunnerTag + "Selected Node Version: " + OrElse(if nodeVersion.Some? then nodeVersion.value else "", "None"),
     RunnerTag + "Resolved Node Path: " + OrElse(nodePath, "System Default")]
  }

  lemma Tagged(text: string)
    ensures |RunnerTag + text| >= |RunnerTag| && (RunnerTag + text)[..|RunnerTag|] == RunnerTag
  {
  }

  /** A fresh run log is three lines, each tagged "[Runner] ". */
  lemma RunnerLinesTagged(script: string, nodeVersion: Option<string>, nodePath: string)
    ensures var r := RunnerLines(script, nodeVersion, nodePath);
      |r| == 3 && forall i :: 0 <= i < 3 ==> |r[i]| >= |RunnerTag| && r[i][..|RunnerTag|] == RunnerTag
  {
    var versionText := if nodeVersion.Some? then nodeVersion.value else "";
    Tagged("Starting script: " + script);
    Tagged("Selected Node Version: " + OrElse(versionText, "None"));
    Tagged("Resolved Node Path: " + OrElse(nodePath, "System Default"));
    assert RunnerTag + "Starting script: " + script == RunnerTag + ("Starting script: " + script);
    assert RunnerTag + "Selected Node Version: " + OrElse(versionText, "None")
        == RunnerTag + ("Selected Node Version: " + OrElse(versionText, "None"));
    assert RunnerTag + "Resolved Node Path: " + OrElse(nodePath, "System Default")
        == RunnerTag + ("Resolved Node Path: " + OrElse(nodePath, "System Default"));
  }

  /** Without a chosen version the second line says "None"; without a path the third says "System Default". */
  lemma RunnerLinesPlaceholders(script: string, nodeVersion: Option<string>, nodePath: string)
    ensures (nodeVersion.None? || nodeVersion == Some("")) ==>
      RunnerLines(script, nodeVersion, nodePath)[1] == RunnerTag + "Selected Node Version: " + "None"
    ensures nodePath == "" ==>
      RunnerLines(script, nodeVersion, nodePath)[2] == RunnerTag + "Resolved Node Path: " + "System Default"
  {
  }

  /** The line a failed start adds. */
  function StartErrorLine(error: string): string {
    "Error starting project: " + error
  }

  /** A run's log right after runProject: the runner lines, then the start error if there was one. */
  function RunLog(script: string, nodeVersion: Option<string>, nodePath: string, startError: Option<string>): seq<string> {
    var lines := RunnerLines(script, nodeVersion, nodePath);
    if startError.Some? then lines + [StartErrorLine(startError.value)] else lines
  }

  // ---------------------------------------------------------------------------
  // Refreshing

  /** What a scan of one project's path gave: a failure, or the descriptor's script list, which may be missing. */
  datatype ScanReply = ScanFailed | ScanReturned(scripts: Option<seq<string>>)

  /** A project after its refresh: only the scripts change, and only on success. */
  function Refreshed(p: Project, reply: ScanReply): (r: Project)
    ensures r.(scripts := p.scripts) == p
    ensures reply.ScanFailed? ==> r == p
    ensures reply.ScanReturned? ==> r.scripts == (if reply.scripts.Some? then reply.scripts.value else [])
  {
    match reply
    case ScanFailed => p
    case ScanReturned(s) => p.(scripts := if s.Some? then s.value else [])
  }

  /** Every project refreshed with its own reply, in list order. */
  function RefreshedAll(projects: seq<Project>, replies: seq<ScanReply>): (r: seq<Project>)
    requires |replies| == |projects|
    ensures |r| == |projects|
    ensures forall i :: 0 <= i < |r| ==> r[i] == Refreshed(projects[i], replies[i])
  {
    seq(|projects|, i requires 0 <= i < |projects| => Refreshed(projects[i], replies[i]))
  }

  /** A refresh in which every scan failed keeps the list, and ids never change. */
  lemma RefreshKeepsIds(projects: seq<Project>, replies: seq<ScanReply>)
    requires |replies| == |projects|
    ensures forall i :: 0 <= i < |projects| ==> RefreshedAll(projects, replies)[i].id == projects[i].id
    ensures (forall i :: 0 <= i < |replies| ==> replies[i].ScanFailed?) ==> RefreshedAll(projects, replies) == projects
  {
  }

  // ---------------------------------------------------------------------------
  // The store

  class Store {
    var projects: seq<Project>
    var runningStatus: map<string, bool>
    var logs: map<string, seq<string>>
    var activeProjectId: Option<string>
    var logBuffer: map<string, seq<string>>
    /** An animation frame has been requested and will flush the buffer. */
    var flushPending: bool

    ghost predicate Valid()
      reads this
    {
      Covered(logBuffer, flushPending)
    }

    constructor ()
      ensures Valid()
      ensures projects == [] && runningStatus == map[] && logs == map[] && activeProjectId == None
      ensures logBuffer == map[] && !flushPending
    {
      projects := [];
      runningStatus := map[];
      logs := map[];
      activeProjectId := None;
      logBuffer := map[];
      flushPending := false;
    }

    /** The body of flushLogs' loop for one id: buffered lines move to the log, cut to the
        newest; an id with nothing buffered is passed over. */
    method FlushOne(id: string, ghost L: map<string, seq<string>>, ghost B: map<string, seq<string>>, ghost todo: set<string>)
      requires id in todo && todo <= B.Keys
      requires logs == PartlyFlushed(L, B, B.Keys - todo) && logBuffer == PartlyDrained(B, B.Keys - todo)
      modifies this
      ensures logs == PartlyFlushed(L, B, B.Keys - (todo - {id})) && logBuffer == PartlyDrained(B, B.Keys - (todo - {id}))
      ensures projects == old(projects) && runningStatus == old(runningStatus) && activeProjectId == old(activeProjectId)
      ensures flushPending == old(flushPending)
    {
      ghost var done := B.Keys - todo;
      assert B.Keys - (todo - {id}) == done + {id};
      assert logBuffer[id] == B[id];
      if logBuffer[id] != [] {
        FlushStepLines(L, B, done, id);
        FlushStepBuffer(B, done, id);
        var appended := Get(logs, id) + logBuffer[id];
        logs := logs[id := KeepNewest(appended, MaxLogLines)];
        logBuffer := logBuffer[id := []];
      } else {
        FlushStepEmpty(L, B, done, id);
      }
    }

    /** flushLogs, run when the animation frame fires. The ids are visited in any order. */
    method FlushLogs()
      modifies this
      ensures logs == Flushed(old(logs), old(logBuffer))
      ensures logBuffer == Drained(old(logBuffer))
      ensures !flushPending && Valid()
      ensures projects == old(projects) && runningStatus == old(runningStatus) && activeProjectId == old(activeProjectId)
    {
      ghost var L := logs;
      ghost var B := logBuffer;
      var todo := logBuffer.Keys;
      assert logs == PartlyFlushed(L, B, B.Keys - todo) && logBuffer == PartlyDrained(B, B.Keys - todo) by {
        assert B.Keys - todo == {};
        FlushAll(L, B);
      }
      while todo != {}
        invariant todo <= B.Keys
        invariant logs == PartlyFlushed(L, B, B.Keys - todo)
        invariant logBuffer == PartlyDrained(B, B.Keys - todo)
        invariant projects == old(projects) && runningStatus == old(runningStatus) && activeProjectId == old(activeProjectId)
        decreases |todo|
      {
        var id :| id in todo;
        FlushOne(id, L, B, todo);
        todo := todo - {id};
      }
      assert logs == Flushed(L, B) && logBuffer == Drained(B) by {
        assert B.Keys - todo == B.Keys;
        FlushAll(L, B);
      }
      flushPending := false;
    }

    /** The output listener: the line goes to the end of that run's buffer, and a flush is
        requested unless one is pending already. */
    method OnProjectOutput(id: string, data: string) returns (scheduled: bool)
      requires Valid()
      modifies this
      ensures scheduled <==> !old(flushPending)
      ensures logBuffer == old(logBuffer)[id := Get(old(logBuffer), id) + [data]]
      ensures flushPending && Valid()
      ensures logs == old(logs) && projects == old(projects) && runningStatus == old(runningStatus)
      ensures activeProjectId == old(activeProjectId)
    {
      logBuffer := logBuffer[id := Get(logBuffer, id) + [data]];
      scheduled := !flushPending;
      if scheduled {
        flushPending := true;
      }
    }

    /** The exit listener: the run stops, its buffered lines move to its log without any cut,
        and the exit marker follows them. */
    method OnProjectExit(id: string)
      requires Valid()
      modifies this
      ensures runningStatus == old(runningStatus)[id := false]
      ensures logs == old(logs)[id := Get(old(logs), id) + Get(old(logBuffer), id) + [ExitMarker]]
      ensures logBuffer == if Get(old(logBuffer), id) != [] then old(logBuffer)[id := []] else old(logBuffer)
      ensures flushPending == old(flushPending) && Valid()
      ensures projects == old(projects) && activeProjectId == old(activeProjectId)
    {
      runningStatus := runningStatus[id := false];
      ghost var before := logs;
      if id in logBuffer && logBuffer[id] != [] {
        logs := logs[id := Get(logs, id) + logBuffer[id]];
        logBuffer := logBuffer[id := []];
      } else {
        assert Get(before, id) + Get(old(logBuffer), id) == Get(before, id);
      }
      assert Get(logs, id) == Get(before, id) + Get(old(logBuffer), id);
      logs := logs[id := Get(logs, id) + [ExitMarker]];
    }

    method AddProject(p: Project)
      modifies this
      ensures projects == old(projects) + [p]
      ensures runningStatus == old(runningStatus) && logs == old(logs) && activeProjectId == old(activeProjectId)
      ensures logBuffer == old(logBuffer) && flushPending == old(flushPending)
    {
      projects := projects + [p];
    }

    method UpdateProject(p: Project)
      modifies this
      ensures projects == Updated(old(projects), p)
      ensures runningStatus == old(runningStatus) && logs == old(logs) && activeProjectId == old(activeProjectId)
      ensures logBuffer == old(logBuffer) && flushPending == old(flushPending)
    {
      var index := IndexOf(projects, p.id);
      if index.Some? {
        projects := projects[index.value := p];
      }
    }

    /** removeProject: the selection is cleared only when it was the removed id. */
    method RemoveProject(id: string)
      modifies this
      ensures projects == Without(old(projects), id)
      ensures activeProjectId == if old(activeProjectId) == Some(id) then None else old(activeProjectId)
      ensures runningStatus == old(runningStatus) && logs == old(logs)
      ensures logBuffer == old(logBuffer) && flushPending == old(flushPending)
    {
      projects := Without(projects, id);
      if activeProjectId == Some(id) {
        activeProjectId := None;
      }
    }

    /** The writes runProject makes before starting the process: a fresh log holding the runner
        lines, the project selected, the run marked running. */
    method BeginRun(projectId: string, runId: string, lines: seq<string>)
      modifies this
      ensures logs == old(logs)[runId := lines]
      ensures activeProjectId == Some(projectId) && runningStatus == old(runningStatus)[runId := true]
      ensures projects == old(projects) && logBuffer == old(logBuffer) && flushPending == old(flushPending)
    {
      logs := logs[runId := []];
      activeProjectId := Some(projectId);
      runningStatus := runningStatus[runId := true];
      assert logs[runId] + lines == lines;
      logs := logs[runId := logs[runId] + lines];
    }

    /** The catch branch of runProject: the run is marked stopped and the error is logged. */
    method FailStart(runId: string, error: string)
      requires runId in logs
      modifies this
      ensures runningStatus == old(runningStatus)[runId := false]
      ensures logs == old(logs)[runId := old(logs)[runId] + [StartErrorLine(error)]]
      ensures activeProjectId == old(activeProjectId)
      ensures projects == old(projects) && logBuffer == old(logBuffer) && flushPending == old(flushPending)
    {
      runningStatus := runningStatus[runId := false];
      logs := logs[runId := logs[runId] + [StartErrorLine(error)]];
    }

    /** runProject. `versions` is the node store's list once loaded; `startError` is the failure
        the runner reported, if any. Nothing happens while the same run is running. */
    method RunProject(p: Project, script: string, versions: seq<NodeVersion>, startError: Option<string>)
      modifies this
      ensures IsRunning(old(runningStatus), RunId(p.id, script)) ==>
        logs == old(logs) && runningStatus == old(runningStatus) && activeProjectId == old(activeProjectId)
      ensures !IsRunning(old(runningStatus), RunId(p.id, script)) ==>
        activeProjectId == Some(p.id)
        && runningStatus == old(runningStatus)[RunId(p.id, script) := startError.None?]
        && logs == old(logs)[RunId(p.id, script) := RunLog(script, p.nodeVersion, ResolveNodePath(p.nodeVersion, versions), startError)]
      ensures projects == old(projects) && logBuffer == old(logBuffer) && flushPending == old(flushPending)
    {
      var runId := RunId(p.id, script);
      if runId in runningStatus && runningStatus[runId] {
        return;
      }
      var nodePath := ResolveNodePath(p.nodeVersion, versions);
      BeginRun(p.id, runId, RunnerLines(script, p.nodeVersion, nodePath));
      if startError.Some? {
        FailStart(runId, startError.value);
      }
    }

    method ClearLog(runId: string)
      modifies this
      ensures logs == old(logs)[runId := []]
      ensures projects == old(projects) && runningStatus == old(runningStatus) && activeProjectId == old(activeProjectId)
      ensures logBuffer == old(logBuffer) && flushPending == old(flushPending)
    {
      logs := logs[runId := []];
    }

    /** refreshAll: `replies` holds each project's scan outcome, in list order. */
    method RefreshAll(replies: seq<ScanReply>)
      requires |replies| == |projects|
      modifies this
      ensures projects == RefreshedAll(old(projects), replies)
      ensures runningStatus == old(runningStatus) && logs == old(logs) && activeProjectId == old(activeProjectId)
      ensures logBuffer == old(logBuffer) && flushPending == old(flushPending)
    {
      var current := projects;
      projects := seq(|current|, i requires 0 <= i < |current| => Refreshed(current[i], replies[i]));
    }
  }
}
