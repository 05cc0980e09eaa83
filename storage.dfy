/** The in-memory project store: a table of users, a table of projects and a
    table of build logs, each keyed by an id that its own counter hands out.
    A JavaScript `Map` iterates in insertion order; ids are handed out in
    increasing order, so each table is kept here as a map plus the list of its
    keys in insertion order (the build logs, which are never updated in place,
    as the list of their records). Clock readings are parameters. */
module Storage {
  import opened Wrappers
  import opened ProjectAnalyzer

  /** The project states of the schema. */
  datatype Status = Uploaded | Extracted | Analyzing | Analyzed | Setup | SetupComplete | Building | Completed | Error

  datatype Level = InfoLevel | WarningLevel | ErrorLevel

  datatype User = User(id: int, username: string, password: string)

  datatype Project = Project(
    id: int, name: string, originalFileName: string, fileSize: int,
    framework: Option<string>, status: Status, progress: int,
    buildConfig: Option<BuildConfig>, projectStats: Option<ProjectStats>, analysis: Option<Analysis>,
    logs: seq<string>, apkPath: Option<string>, apkSize: Option<int>,
    createdAt: int, updatedAt: int)

  /** What `createProject` is given: the required name, file name and size; every other key may be missing. */
  datatype NewProject = NewProject(
    name: string, originalFileName: string, fileSize: int,
    framework: Option<string>, status: Option<Status>, progress: Option<int>,
    buildConfig: Option<BuildConfig>, projectStats: Option<ProjectStats>, analysis: Option<Analysis>,
    logs: Option<seq<string>>, apkPath: Option<string>, apkSize: Option<int>)

  /** A partial project for `updateProject`: `Some` marks a supplied key. */
  datatype ProjectUpdate = ProjectUpdate(
    name: Option<string>, originalFileName: Option<string>, fileSize: Option<int>,
    framework: Option<string>, status: Option<Status>, progress: Option<int>,
    buildConfig: Option<BuildConfig>, projectStats: Option<ProjectStats>, analysis: Option<Analysis>,
    logs: Option<seq<string>>, apkPath: Option<string>, apkSize: Option<int>)

  const NoUpdate := ProjectUpdate(None, None, None, None, None, None, None, None, None, None, None, None)

  datatype BuildLog = BuildLog(id: int, projectId: int, level: Level, message: string, timestamp: int)

  /** `s || null` for an optional string: the empty string becomes null. */
  function OrNullText(s: Option<string>): (r: Option<string>)
    ensures r.Some? <==> s.Some? && s.value != ""
    ensures r.Some? ==> r == s
  {
    if s.Some? && s.value != "" then s else None
  }

  /** `n || null` for an optional number: zero becomes null. */
  function OrNullNumber(n: Option<int>): (r: Option<int>)
    ensures r.Some? <==> n.Some? && n.value != 0
    ensures r.Some? ==> r == n
  {
    if n.Some? && n.value != 0 then n else None
  }

  /** The record `createProject` stores under `id` at time `now`. */
  function NewRecord(id: int, p: NewProject, now: int): (r: Project)
    ensures r.id == id && r.createdAt == now && r.updatedAt == now
    ensures r.name == p.name && r.originalFileName == p.originalFileName && r.fileSize == p.fileSize
    ensures r.status == (if p.status.Some? then p.status.value else Uploaded)
    ensures p.progress.None? ==> r.progress == 0
    ensures p.progress.Some? ==> r.progress == p.progress.value
    ensures r.framework == OrNullText(p.framework) && r.apkPath == OrNullText(p.apkPath)
    ensures r.apkSize == OrNullNumber(p.apkSize)
    ensures r.buildConfig == p.buildConfig && r.projectStats == p.projectStats && r.analysis == p.analysis
    ensures r.logs == (if p.logs.Some? then p.logs.value else [])
  {
    Project(id, p.name, p.originalFileName, p.fileSize, OrNullText(p.framework),
      p.status.GetOr(Uploaded), OrNum(p.progress, 0), p.buildConfig, p.projectStats, p.analysis,
      p.logs.GetOr([]), OrNullText(p.apkPath), OrNullNumber(p.apkSize), now, now)
  }

  /** One key of `{...project, ...updates}`. */
  function Pick<T>(supplied: Option<T>, current: T): (r: T)
    ensures supplied.Some? ==> r == supplied.value
    ensures supplied.None? ==> r == current
  {
    if supplied.Some? then supplied.value else current
  }

  /** `{...project, ...updates, updatedAt: now}` */
  function Merged(p: Project, u: ProjectUpdate, now: int): Project {
    Project(p.id, Pick(u.name, p.name), Pick(u.originalFileName, p.originalFileName), Pick(u.fileSize, p.fileSize),
      if u.framework.Some? then u.framework else p.framework,
      Pick(u.status, p.status), Pick(u.progress, p.progress),
      if u.buildConfig.Some? then u.buildConfig else p.buildConfig,
      if u.projectStats.Some? then u.projectStats else p.projectStats,
      if u.analysis.Some? then u.analysis else p.analysis,
      Pick(u.logs, p.logs),
      if u.apkPath.Some? then u.apkPath else p.apkPath,
      if u.apkSize.Some? then u.apkSize else p.apkSize,
      p.createdAt, now)
  }

  /** The later of two updates wins on every key both supply. */
  function Then(u: ProjectUpdate, v: ProjectUpdate): ProjectUpdate {
    ProjectUpdate(
      if v.name.Some? then v.name else u.name,
      if v.originalFileName.Some? then v.originalFileName else u.originalFileName,
      if v.fileSize.Some? then v.fileSize else u.fileSize,
      if v.framework.Some? then v.framework else u.framework,
      if v.status.Some? then v.status else u.status,
      if v.progress.Some? then v.progress else u.progress,
      if v.buildConfig.Some? then v.buildConfig else u.buildConfig,
      if v.projectStats.Some? then v.projectStats else u.projectStats,
      if v.analysis.Some? then v.analysis else u.analysis,
      if v.logs.Some? then v.logs else u.logs,
      if v.apkPath.Some? then v.apkPath else u.apkPath,
      if v.apkSize.Some? then v.apkSize else u.apkSize)
  }

  /** An update keeps the id and the creation time, and refreshes the update time. */
  lemma MergedKeepsIdentity(p: Project, u: ProjectUpdate, now: int)
    ensures var r := Merged(p, u, now); r.id == p.id && r.createdAt == p.createdAt && r.updatedAt == now
  {
  }

  /** An empty update only refreshes the update time. */
  lemma MergedNothing(p: Project, now: int)
    ensures Merged(p, NoUpdate, now) == p.(updatedAt := now)
  {
  }

  /** Two updates in a row are one update with the later keys winning; in
      particular repeating an update changes nothing but the update time. */
  lemma MergedTwice(p: Project, u: ProjectUpdate, v: ProjectUpdate, t1: int, t2: int)
    ensures Merged(Merged(p, u, t1), v, t2) == Merged(p, Then(u, v), t2)
    ensures Merged(Merged(p, u, t1), u, t2) == Merged(p, u, t2)
  {
  }

  /** The status and progress update the handlers write. */
  function StatusProgress(s: Status, progress: int): (u: ProjectUpdate)
    ensures u.status == Some(s) && u.progress == Some(progress)
    ensures u == NoUpdate.(status := u.status, progress := u.progress)
  {
    NoUpdate.(status := Some(s), progress := Some(progress))
  }

  // ---------------------------------------------------------------- build-log tables

  /** `logs.filter(log => log.projectId === p)` */
  function LogsOf(logs: seq<BuildLog>, p: int): seq<BuildLog> {
    if logs == [] then []
    else
      var init := logs[..|logs| - 1];
      var last := logs[|logs| - 1];
      LogsOf(init, p) + (if last.projectId == p then [last] else [])
  }

  /** The logs of the other projects, in their order. */
  function WithoutProject(logs: seq<BuildLog>, p: int): seq<BuildLog> {
    if logs == [] then []
    else
      var init := logs[..|logs| - 1];
      var last := logs[|logs| - 1];
      WithoutProject(init, p) + (if last.projectId != p then [last] else [])
  }

  /** The logs whose ids are not in `ids`, in their order. */
  function WithoutIds(logs: seq<BuildLog>, ids: set<int>): seq<BuildLog> {
    if logs == [] then []
    else
      var init := logs[..|logs| - 1];
      var last := logs[|logs| - 1];
      WithoutIds(init, ids) + (if last.id !in ids then [last] else [])
  }

  /** Ids strictly increase along the table: insertion order is id order. */
  predicate IdsIncrease(logs: seq<BuildLog>) {
    forall i, j :: 0 <= i < j < |logs| ==> logs[i].id < logs[j].id
  }

  /** The ids of the logs of project `p`, in their order. */
  function IdsOf(logs: seq<BuildLog>, p: int): seq<int> {
    if logs == [] then []
    else IdsOf(logs[..|logs| - 1], p) + (if logs[|logs| - 1].projectId == p then [logs[|logs| - 1].id] else [])
  }

  lemma LogsOfSnoc(s: seq<BuildLog>, x: BuildLog, p: int)
    ensures x.projectId == p ==> LogsOf(s + [x], p) == LogsOf(s, p) + [x]
    ensures x.projectId != p ==> LogsOf(s + [x], p) == LogsOf(s, p)
  {
    assert (s + [x])[..|s|] == s;
    assert LogsOf(s, p) + [] == LogsOf(s, p);
  }

  lemma WithoutProjectSnoc(s: seq<BuildLog>, x: BuildLog, p: int)
    ensures x.projectId != p ==> WithoutProject(s + [x], p) == WithoutProject(s, p) + [x]
    ensures x.projectId == p ==> WithoutProject(s + [x], p) == WithoutProject(s, p)
  {
    assert (s + [x])[..|s|] == s;
    assert WithoutProject(s, p) + [] == WithoutProject(s, p);
  }

  lemma WithoutIdsSnoc(s: seq<BuildLog>, x: BuildLog, ids: set<int>)
    ensures x.id !in ids ==> WithoutIds(s + [x], ids) == WithoutIds(s, ids) + [x]
    ensures x.id in ids ==> WithoutIds(s + [x], ids) == WithoutIds(s, ids)
  {
    assert (s + [x])[..|s|] == s;
    assert WithoutIds(s, ids) + [] == WithoutIds(s, ids);
  }

  /** `p`'s logs are exactly the stored logs that name `p`. */
  lemma {:induction false} LogsOfMembers(logs: seq<BuildLog>, p: int)
    ensures |LogsOf(logs, p)| <= |logs|
    ensures forall l :: l in LogsOf(logs, p) <==> l in logs && l.projectId == p
  {
    if logs != [] {
      var init := logs[..|logs| - 1];
      var last := logs[|logs| - 1];
      assert logs == init + [last];
      LogsOfMembers(init, p);
      LogsOfSnoc(init, last, p);
    }
  }

  lemma {:induction false} WithoutProjectMembers(logs: seq<BuildLog>, p: int)
    ensures |WithoutProject(logs, p)| <= |logs|
    ensures forall l :: l in WithoutProject(logs, p) <==> l in logs && l.projectId != p
  {
    if logs != [] {
      var init := logs[..|logs| - 1];
      var last := logs[|logs| - 1];
      assert logs == init + [last];
      WithoutProjectMembers(init, p);
      WithoutProjectSnoc(init, last, p);
    }
  }

  lemma {:induction false} WithoutIdsMembers(logs: seq<BuildLog>, ids: set<int>)
    ensures |WithoutIds(logs, ids)| <= |logs|
    ensures forall l :: l in WithoutIds(logs, ids) <==> l in logs && l.id !in ids
  {
    if logs != [] {
      var init := logs[..|logs| - 1];
      var last := logs[|logs| - 1];
      assert logs == init + [last];
      WithoutIdsMembers(init, ids);
      WithoutIdsSnoc(init, last, ids);
    }
  }

  /** Clearing a project's logs leaves none of them. */
  lemma {:induction false} ClearLeavesNone(logs: seq<BuildLog>, p: int)
    ensures LogsOf(WithoutProject(logs, p), p) == []
  {
    if logs != [] {
      var init := logs[..|logs| - 1];
      var last := logs[|logs| - 1];
      assert logs == init + [last];
      ClearLeavesNone(init, p);
      WithoutProjectSnoc(init, last, p);
      if last.projectId != p {
        LogsOfSnoc(WithoutProject(init, p), last, p);
      }
    }
  }

  /** Clearing a project's logs keeps every other project's logs, in their order. */
  lemma {:induction false} ClearKeepsOthers(logs: seq<BuildLog>, p: int, q: int)
    requires q != p
    ensures LogsOf(WithoutProject(logs, p), q) == LogsOf(logs, q)
  {
    if logs != [] {
      var init := logs[..|logs| - 1];
      var last := logs[|logs| - 1];
      assert logs == init + [last];
      ClearKeepsOthers(init, p, q);
      WithoutProjectSnoc(init, last, p);
      LogsOfSnoc(init, last, q);
      if last.projectId != p {
        LogsOfSnoc(WithoutProject(init, p), last, q);
      }
    }
  }

  /** A project's logs come out in increasing id order, that is, in the order they were added. */
  lemma {:induction false} LogsOfInOrder(logs: seq<BuildLog>, p: int)
    requires IdsIncrease(logs)
    ensures IdsIncrease(LogsOf(logs, p))
  {
    if logs != [] {
      var init := logs[..|logs| - 1];
      var last := logs[|logs| - 1];
      assert logs == init + [last];
      LogsOfInOrder(init, p);
      LogsOfSnoc(init, last, p);
      if last.projectId == p {
        LogsOfMembers(init, p);
        forall i | 0 <= i < |LogsOf(init, p)|
          ensures LogsOf(init, p)[i].id < last.id
        {
          assert LogsOf(init, p)[i] in init;
        }
      }
    }
  }

  lemma {:induction false} WithoutNoIds(logs: seq<BuildLog>)
    ensures WithoutIds(logs, {}) == logs
  {
    if logs != [] {
      var init := logs[..|logs| - 1];
      assert logs == init + [logs[|logs| - 1]];
      WithoutNoIds(init);
      WithoutIdsSnoc(init, logs[|logs| - 1], {});
    }
  }

  /** Deleting one more id is deleting the larger id set. */
  lemma {:induction false} WithoutIdsStep(logs: seq<BuildLog>, ids: set<int>, id: int)
    ensures WithoutIds(WithoutIds(logs, ids), {id}) == WithoutIds(logs, ids + {id})
  {
    if logs != [] {
      var init := logs[..|logs| - 1];
      var last := logs[|logs| - 1];
      assert logs == init + [last];
      WithoutIdsStep(init, ids, id);
      WithoutIdsSnoc(init, last, ids);
      WithoutIdsSnoc(init, last, ids + {id});
      if last.id !in ids {
        WithoutIdsSnoc(WithoutIds(init, ids), last, {id});
      }
    }
  }

  /** With distinct ids, deleting the ids of `p`'s logs deletes exactly `p`'s logs. */
  lemma {:induction false} WithoutOwnIds(logs: seq<BuildLog>, p: int, ids: set<int>)
    requires forall l :: l in logs ==> (l.id in ids <==> l.projectId == p)
    ensures WithoutIds(logs, ids) == WithoutProject(logs, p)
  {
    if logs != [] {
      var init := logs[..|logs| - 1];
      var last := logs[|logs| - 1];
      assert logs == init + [last];
      WithoutOwnIds(init, p, ids);
      WithoutIdsSnoc(init, last, ids);
      WithoutProjectSnoc(init, last, p);
    }
  }

  /** The ids collected for `p` are exactly the ids of `p`'s logs, all at most the last id. */
  lemma {:induction false} OwnIds(logs: seq<BuildLog>, p: int)
    requires IdsIncrease(logs)
    ensures forall l :: l in logs ==> (l.projectId == p <==> l.id in IdsOf(logs, p))
    ensures logs != [] ==> forall x :: x in IdsOf(logs, p) ==> x <= logs[|logs| - 1].id
  {
    if logs != [] {
      var init := logs[..|logs| - 1];
      var last := logs[|logs| - 1];
      OwnIds(init, p);
      var ii := IdsOf(init, p);
      assert IdsOf(logs, p) == ii + (if last.projectId == p then [last.id] else []);
      if init != [] {
        assert init[|init| - 1].id < last.id;
      }
      assert last.id !in ii;
      forall l | l in logs
        ensures l.projectId == p <==> l.id in IdsOf(logs, p)
      {
        if l != last {
          var i :| 0 <= i < |logs| && logs[i] == l;
          assert l in init && l.id < last.id;
        }
      }
    }
  }

  // ---------------------------------------------------------------- the store's invariant

  predicate UsersValid(users: map<int, User>, order: seq<int>, counter: int) {
    && 1 <= counter
    && (forall id :: id in users ==> 1 <= id < counter && users[id].id == id)
    && (forall k :: 0 <= k < |order| ==> order[k] in users)
    && (forall id :: id in users ==> id in order)
    && Increasing(order)
  }

  predicate ProjectsValid(projects: map<int, Project>, order: seq<int>, counter: int) {
    && 1 <= counter
    && (forall id :: id in projects ==> 1 <= id < counter && projects[id].id == id)
    && (forall k :: 0 <= k < |order| ==> order[k] in projects)
    && (forall id :: id in projects ==> id in order)
    && Increasing(order)
  }

  predicate LogsValid(logs: seq<BuildLog>, counter: int) {
    && 1 <= counter
    && (forall i :: 0 <= i < |logs| ==> 1 <= logs[i].id < counter)
    && IdsIncrease(logs)
  }

  lemma UserAdded(users: map<int, User>, order: seq<int>, counter: int, u: User)
    requires UsersValid(users, order, counter) && u.id == counter
    ensures UsersValid(users[counter := u], order + [counter], counter + 1)
  {
    var o := order + [counter];
    forall k | 0 <= k < |o| ensures o[k] in users[counter := u] {
      if k < |order| { assert o[k] == order[k]; }
    }
    forall i, j | 0 <= i < j < |o| ensures o[i] < o[j] {
      if j < |order| { assert o[i] == order[i] && o[j] == order[j]; } else { assert order[i] in users; }
    }
  }

  lemma ProjectAdded(projects: map<int, Project>, order: seq<int>, counter: int, p: Project)
    requires ProjectsValid(projects, order, counter) && p.id == counter
    ensures ProjectsValid(projects[counter := p], order + [counter], counter + 1)
  {
    var o := order + [counter];
    forall k | 0 <= k < |o| ensures o[k] in projects[counter := p] {
      if k < |order| { assert o[k] == order[k]; }
    }
    forall i, j | 0 <= i < j < |o| ensures o[i] < o[j] {
      if j < |order| { assert o[i] == order[i] && o[j] == order[j]; } else { assert order[i] in projects; }
    }
  }

  lemma ProjectReplaced(projects: map<int, Project>, order: seq<int>, counter: int, p: Project)
    requires ProjectsValid(projects, order, counter) && p.id in projects
    ensures ProjectsValid(projects[p.id := p], order, counter)
  {
  }

  lemma ProjectRemoved(projects: map<int, Project>, order: seq<int>, counter: int, id: int)
    requires ProjectsValid(projects, order, counter)
    ensures ProjectsValid(projects - {id}, Remove(order, id), counter)
  {
    RemoveKeepsIncreasing(order, id);
    var o := Remove(order, id);
    forall k | 0 <= k < |o| ensures o[k] in projects - {id} {
      assert o[k] in o;
    }
  }

  lemma LogAdded(logs: seq<BuildLog>, counter: int, l: BuildLog)
    requires LogsValid(logs, counter) && l.id == counter
    ensures LogsValid(logs + [l], counter + 1)
  {
    var s := logs + [l];
    forall i | 0 <= i < |s| ensures 1 <= s[i].id < counter + 1 {
      if i < |logs| { assert s[i] == logs[i]; }
    }
    forall i, j | 0 <= i < j < |s| ensures s[i].id < s[j].id {
      if j < |logs| { assert s[i] == logs[i] && s[j] == logs[j]; } else { assert s[i] == logs[i]; }
    }
  }

  lemma LogsDeleted(logs: seq<BuildLog>, counter: int, ids: set<int>)
    requires LogsValid(logs, counter)
    ensures LogsValid(WithoutIds(logs, ids), counter)
  {
    WithoutIdsIncrease(logs, ids);
    WithoutIdsMembers(logs, ids);
    var w := WithoutIds(logs, ids);
    forall k | 0 <= k < |w| ensures 1 <= w[k].id < counter {
      assert w[k] in logs;
    }
  }

  // ---------------------------------------------------------------- the store

  class MemStorage {
    var users: map<int, User>
    var userOrder: seq<int>
    var projects: map<int, Project>
    var projectOrder: seq<int>
    var buildLogs: seq<BuildLog>
    var userIdCounter: int
    var projectIdCounter: int
    var logIdCounter: int

    /** Every key was handed out by its counter and names its own record, each
        key list holds every key once in increasing order, and so do the logs. */
    ghost predicate Valid()
      reads this
    {
      && UsersValid(users, userOrder, userIdCounter)
      && ProjectsValid(projects, projectOrder, projectIdCounter)
      && LogsValid(buildLogs, logIdCounter)
    }

    constructor ()
      ensures Valid()
      ensures users == map[] && projects == map[] && buildLogs == [] && userOrder == [] && projectOrder == []
      ensures userIdCounter == 1 && projectIdCounter == 1 && logIdCounter == 1
    {
      users := map[];
      userOrder := [];
      projects := map[];
      projectOrder := [];
      buildLogs := [];
      userIdCounter := 1;
      projectIdCounter := 1;
      logIdCounter := 1;
    }

    // ------------------------------------------------------------ users

    function GetUser(id: int): (u: Option<User>)
      reads this
      ensures u.Some? <==> id in users
      ensures u.Some? ==> u.value == users[id]
    {
      if id in users then Some(users[id]) else None
    }

    /** The first user, in insertion order, with that name. */
    method GetUserByUsername(username: string) returns (u: Option<User>)
      requires Valid()
      ensures u.Some? ==> u.value.username == username && u.value.id in users && users[u.value.id] == u.value
      ensures u.Some? ==> forall id :: id in users && id < u.value.id ==> users[id].username != username
      ensures u.None? ==> forall id :: id in users ==> users[id].username != username
    {
      var i := 0;
      while i < |userOrder|
        invariant 0 <= i <= |userOrder|
        invariant forall k :: 0 <= k < i ==> users[userOrder[k]].username != username
      {
        var user := users[userOrder[i]];
        if user.username == username {
          forall id | id in users && id < user.id
            ensures users[id].username != username
          {
            var k :| 0 <= k < |userOrder| && userOrder[k] == id;
          }
          return Some(user);
        }
        i := i + 1;
      }
      forall id | id in users ensures users[id].username != username {
        var k :| 0 <= k < |userOrder| && userOrder[k] == id;
      }
      return None;
    }

    method CreateUser(username: string, password: string) returns (u: User)
      requires Valid()
      modifies this
      ensures Valid()
      ensures u == User(old(userIdCounter), username, password) && u.id !in old(users)
      ensures users == old(users)[u.id := u] && userOrder == old(userOrder) + [u.id]
      ensures userIdCounter == old(userIdCounter) + 1
      ensures projects == old(projects) && projectOrder == old(projectOrder) && buildLogs == old(buildLogs)
      ensures projectIdCounter == old(projectIdCounter) && logIdCounter == old(logIdCounter)
    {
      var id := userIdCounter;
      u := User(id, username, password);
      UserAdded(users, userOrder, userIdCounter, u);
      userIdCounter := userIdCounter + 1;
      users := users[id := u];
      userOrder := userOrder + [id];
    }

    // ------------------------------------------------------------ projects

    /** `createProject`: the id is the counter's value, which then moves on, so
        ids are fresh and increase; missing keys get their defaults. */
    method CreateProject(p: NewProject, now: int) returns (r: Project)
      requires Valid()
      modifies this
      ensures Valid()
      ensures r == NewRecord(old(projectIdCounter), p, now)
      ensures r.id !in old(projects) && forall id :: id in old(projects) ==> id < r.id
      ensures projects == old(projects)[r.id := r] && projectOrder == old(projectOrder) + [r.id]
      ensures projectIdCounter == old(projectIdCounter) + 1
      ensures users == old(users) && userOrder == old(userOrder) && buildLogs == old(buildLogs)
      ensures userIdCounter == old(userIdCounter) && logIdCounter == old(logIdCounter)
    {
      var id := projectIdCounter;
      r := NewRecord(id, p, now);
      ProjectAdded(projects, projectOrder, projectIdCounter, r);
      projectIdCounter := projectIdCounter + 1;
      projects := projects[id := r];
      projectOrder := projectOrder + [id];
    }

    function GetProject(id: int): (p: Option<Project>)
      reads this
      ensures p.Some? <==> id in projects
      ensures p.Some? ==> p.value == projects[id]
    {
      if id in projects then Some(projects[id]) else None
    }

    /** `updateProject`: an unknown id changes nothing; otherwise the supplied
        keys replace the stored ones under the same key and in the same place. */
    method UpdateProject(id: int, u: ProjectUpdate, now: int) returns (r: Option<Project>)
      requires Valid()
      modifies this
      ensures Valid()
      ensures id !in old(projects) ==> r.None? && projects == old(projects)
      ensures id in old(projects) ==> r == Some(Merged(old(projects)[id], u, now)) && projects == old(projects)[id := r.value]
      ensures projectOrder == old(projectOrder) && projectIdCounter == old(projectIdCounter)
      ensures users == old(users) && userOrder == old(userOrder) && buildLogs == old(buildLogs)
      ensures userIdCounter == old(userIdCounter) && logIdCounter == old(logIdCounter)
    {
      if id !in projects {
        return None;
      }
      var updated := Merged(projects[id], u, now);
      MergedKeepsIdentity(projects[id], u, now);
      ProjectReplaced(projects, projectOrder, projectIdCounter, updated);
      projects := projects[id := updated];
      r := Some(updated);
    }

    /** `deleteProject`: true exactly when the id was present; afterwards it is absent. */
    method DeleteProject(id: int) returns (deleted: bool)
      requires Valid()
      modifies this
      ensures Valid()
      ensures deleted <==> id in old(projects)
      ensures projects == old(projects) - {id} && projectOrder == Remove(old(projectOrder), id)
      ensures projectIdCounter == old(projectIdCounter)
      ensures users == old(users) && userOrder == old(userOrder) && buildLogs == old(buildLogs)
      ensures userIdCounter == old(userIdCounter) && logIdCounter == old(logIdCounter)
    {
      deleted := id in projects;
      ProjectRemoved(projects, projectOrder, projectIdCounter, id);
      projects := projects - {id};
      projectOrder := Remove(projectOrder, id);
    }

    /** `getAllProjects`: every stored project once, in insertion order. */
    method GetAllProjects() returns (ps: seq<Project>)
      requires Valid()
      ensures |ps| == |projectOrder|
      ensures forall k :: 0 <= k < |ps| ==> ps[k] == projects[projectOrder[k]]
      ensures forall id :: id in projects ==> projects[id] in ps
    {
      ps := [];
      for i := 0 to |projectOrder|
        invariant |ps| == i
        invariant forall k :: 0 <= k < i ==> ps[k] == projects[projectOrder[k]]
      {
        ps := ps + [projects[projectOrder[i]]];
      }
      forall id | id in projects ensures projects[id] in ps {
        var k :| 0 <= k < |projectOrder| && projectOrder[k] == id;
        assert ps[k] == projects[id];
      }
    }

    // ------------------------------------------------------------ build logs

    /** `addBuildLog`: a fresh id from the log counter; the project table is untouched. */
    method AddBuildLog(projectId: int, level: Level, message: string, now: int) returns (log: BuildLog)
      requires Valid()
      modifies this
      ensures Valid()
      ensures log == BuildLog(old(logIdCounter), projectId, level, message, now)
      ensures buildLogs == old(buildLogs) + [log] && logIdCounter == old(logIdCounter) + 1
      ensures forall l :: l in old(buildLogs) ==> l.id < log.id
      ensures projects == old(projects) && projectOrder == old(projectOrder) && projectIdCounter == old(projectIdCounter)
      ensures users == old(users) && userOrder == old(userOrder) && userIdCounter == old(userIdCounter)
    {
      log := BuildLog(logIdCounter, projectId, level, message, now);
      LogAdded(buildLogs, logIdCounter, log);
      logIdCounter := logIdCounter + 1;
      buildLogs := buildLogs + [log];
    }

    /** `getBuildLogs(p)`: the logs of `p`, in the order they were added. */
    method GetBuildLogs(projectId: int) returns (logs: seq<BuildLog>)
      requires Valid()
      ensures logs == LogsOf(buildLogs, projectId)
      ensures IdsIncrease(logs)
    {
      logs := [];
      for i := 0 to |buildLogs|
        invariant logs == LogsOf(buildLogs[..i], projectId)
      {
        assert buildLogs[..i + 1][..i] == buildLogs[..i];
        if buildLogs[i].projectId == projectId {
          logs := logs + [buildLogs[i]];
        }
      }
      assert buildLogs[..|buildLogs|] == buildLogs;
      LogsOfInOrder(buildLogs, projectId);
    }

    /** The first half of `clearBuildLogs(p)`: the ids of `p`'s logs, in table order. */
    method LogIdsOf(projectId: int) returns (ids: seq<int>)
      requires Valid()
      ensures ids == IdsOf(buildLogs, projectId)
      ensures forall l :: l in buildLogs ==> (l.projectId == projectId <==> l.id in ids)
    {
      ids := [];
      for i := 0 to |buildLogs|
        invariant ids == IdsOf(buildLogs[..i], projectId)
      {
        assert buildLogs[..i + 1][..i] == buildLogs[..i];
        if buildLogs[i].projectId == projectId {
          ids := ids + [buildLogs[i].id];
        }
      }
      assert buildLogs[..|buildLogs|] == buildLogs;
      OwnIds(buildLogs, projectId);
    }

    /** `buildLogs.delete(id)` */
    method DeleteLog(id: int)
      requires Valid()
      modifies this
      ensures Valid()
      ensures buildLogs == WithoutIds(old(buildLogs), {id}) && logIdCounter == old(logIdCounter)
      ensures projects == old(projects) && projectOrder == old(projectOrder) && projectIdCounter == old(projectIdCounter)
      ensures users == old(users) && userOrder == old(userOrder) && userIdCounter == old(userIdCounter)
    {
      LogsDeleted(buildLogs, logIdCounter, {id});
      buildLogs := WithoutIds(buildLogs, {id});
    }

    /** The second half of `clearBuildLogs(p)`: `buildLogs.delete(id)` for each id in turn. */
    method DeleteLogs(ids: seq<int>)
      requires Valid()
      modifies this
      ensures Valid()
      ensures buildLogs == WithoutIds(old(buildLogs), IdSet(ids)) && logIdCounter == old(logIdCounter)
      ensures projects == old(projects) && projectOrder == old(projectOrder) && projectIdCounter == old(projectIdCounter)
      ensures users == old(users) && userOrder == old(userOrder) && userIdCounter == old(userIdCounter)
    {
      WithoutNoIds(buildLogs);
      assert IdSet(ids[..0]) == {};
      for i := 0 to |ids|
        invariant Valid()
        invariant buildLogs == WithoutIds(old(buildLogs), IdSet(ids[..i])) && logIdCounter == old(logIdCounter)
        invariant projects == old(projects) && projectOrder == old(projectOrder) && projectIdCounter == old(projectIdCounter)
        invariant users == old(users) && userOrder == old(userOrder) && userIdCounter == old(userIdCounter)
      {
        IdSetSnoc(ids, i);
        WithoutIdsStep(old(buildLogs), IdSet(ids[..i]), ids[i]);
        DeleteLog(ids[i]);
      }
      assert ids[..|ids|] == ids;
    }

    /** `clearBuildLogs(p)`: collect the ids of `p`'s logs, then delete them one
        by one; what is left is every other project's logs, in their order. */
    method ClearBuildLogs(projectId: int)
      requires Valid()
      modifies this
      ensures Valid()
      ensures buildLogs == WithoutProject(old(buildLogs), projectId)
      ensures logIdCounter == old(logIdCounter)
      ensures projects == old(projects) && projectOrder == old(projectOrder) && projectIdCounter == old(projectIdCounter)
      ensures users == old(users) && userOrder == old(userOrder) && userIdCounter == old(userIdCounter)
    {
      var logsToDelete := LogIdsOf(projectId);
      WithoutOwnIds(buildLogs, projectId, IdSet(logsToDelete));
      DeleteLogs(logsToDelete);
    }
  }

  /** The ids of a list, as a set. */
  function IdSet(ids: seq<int>): (r: set<int>)
    ensures forall x :: x in r <==> x in ids
  {
    set x | x in ids
  }

  lemma IdSetSnoc(ids: seq<int>, i: int)
    requires 0 <= i < |ids|
    ensures IdSet(ids[..i + 1]) == IdSet(ids[..i]) + {ids[i]}
  {
    assert ids[..i + 1] == ids[..i] + [ids[i]];
  }

  /** Deleting logs keeps ids increasing. */
  lemma {:induction false} WithoutIdsIncrease(logs: seq<BuildLog>, ids: set<int>)
    requires IdsIncrease(logs)
    ensures IdsIncrease(WithoutIds(logs, ids))
  {
    if logs != [] {
      var init := logs[..|logs| - 1];
      var last := logs[|logs| - 1];
      assert logs == init + [last];
      assert IdsIncrease(init);
      WithoutIdsIncrease(init, ids);
      WithoutIdsSnoc(init, last, ids);
      if last.id !in ids {
        forall l | l in init ensures l.id < last.id {
          var j :| 0 <= j < |init| && init[j] == l;
          assert logs[j] == l;
        }
        WithoutIdsMembers(init, ids);
        SnocIncrease(WithoutIds(init, ids), last);
      }
    }
  }

  /** A log with a larger id than all before it can follow them. */
  lemma SnocIncrease(logs: seq<BuildLog>, x: BuildLog)
    requires IdsIncrease(logs) && forall l :: l in logs ==> l.id < x.id
    ensures IdsIncrease(logs + [x])
  {
    var r := logs + [x];
    forall i, j | 0 <= i < j < |r| ensures r[i].id < r[j].id {
      assert r[i] == logs[i];
      if j < |logs| { assert r[j] == logs[j]; } else { assert logs[i] in logs; }
    }
  }

  predicate Increasing(ids: seq<int>) {
    forall i, j :: 0 <= i < j < |ids| ==> ids[i] < ids[j]
  }

  /** `ids` without `id`, in order. */
  function Remove(ids: seq<int>, id: int): (r: seq<int>)
    ensures forall x :: x in r <==> x in ids && x != id
  {
    if ids == [] then []
    else
      var init := ids[..|ids| - 1];
      assert forall x :: x in ids <==> x in init || x == ids[|ids| - 1];
      Remove(init, id) + (if ids[|ids| - 1] != id then [ids[|ids| - 1]] else [])
  }

  lemma {:induction false} RemoveKeepsIncreasing(ids: seq<int>, id: int)
    requires Increasing(ids)
    ensures Increasing(Remove(ids, id))
  {
    if ids != [] {
      var init := ids[..|ids| - 1];
      RemoveKeepsIncreasing(init, id);
      var last := ids[|ids| - 1];
      if last != id {
        var w := Remove(init, id);
        forall i | 0 <= i < |w| ensures w[i] < last {
          assert w[i] in init;
        }
      }
    }
  }
}
