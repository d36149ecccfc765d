/** Startup recovery: running rows whose container is gone are failed, then the per-job secrets
    directories that belong to no running job are removed. */
module Recovery {
  import opened Wrappers
  import opened JobDomain
  import opened JobProtocol
  import opened JobsRepo
  import opened UseCases
  import opened Sequential

  // ---- reattach ----

  /** How many rows the loop gets through. */
  function Handled(rows: seq<JobRow>, alive: set<ContainerID>, t: Trouble): (k: nat)
    ensures k <= |rows| && (k < |rows| ==> Fails(rows[k], alive, t))
    ensures forall i :: 0 <= i < k ==> !Fails(rows[i], alive, t)
  {
    if rows == [] || Fails(rows[0], alive, t) then 0 else 1 + Handled(rows[1..], alive, t)
  }

  /** The row after recovery, if it is one of the rows the loop got to. */
  function RecoveredRow(r: JobRow, alive: set<ContainerID>, now: Time): JobRow {
    if r.containerID in alive then r else Granted(r, ToFailed(GONE_REASON), now)
  }

  ghost predicate RecoveredUpTo(m: map<JobID, JobRow>, m': map<JobID, JobRow>, rows: seq<JobRow>, k: nat,
                                alive: set<ContainerID>, now: Time)
    requires k <= |rows|
  {
    && m'.Keys == m.Keys
    && (forall i :: 0 <= i < k ==> rows[i].id in m' && m'[rows[i].id] == RecoveredRow(rows[i], alive, now))
    && (forall id :: id in m && (forall i :: 0 <= i < k ==> rows[i].id != id) ==> m'[id] == m[id])
  }

  /** The rows before the first one that cannot be inspected or stored are recovered; that row and all
      others are untouched; and the loop succeeds exactly if there is no such row. */
  lemma {:induction false} ReattachRecoversPrefix(m: map<JobID, JobRow>, rows: seq<JobRow>, alive: set<ContainerID>,
                                                  t: Trouble, now: Time)
    requires Listing(m, rows)
    ensures var (m', ok) := ReattachSpec(m, rows, alive, t, now);
            && RecoveredUpTo(m, m', rows, Handled(rows, alive, t), alive, now)
            && (forall i :: Handled(rows, alive, t) <= i < |rows| ==> m'[rows[i].id] == rows[i])
            && (ok <==> forall i :: 0 <= i < |rows| ==>
                  rows[i].containerID !in t.broken && (rows[i].containerID in alive || rows[i].id !in t.refused))
    decreases |rows|
  {
    var k := Handled(rows, alive, t);
    if rows != [] && !Fails(rows[0], alive, t) {
      var m1 := m[rows[0].id := RecoveredRow(rows[0], alive, now)];
      assert m1 == if rows[0].containerID in alive then m else m1;
      assert Listing(m1, rows[1..]);
      ReattachRecoversPrefix(m1, rows[1..], alive, t, now);
      var (m', ok) := ReattachSpec(m, rows, alive, t, now);
      PrefixStep(m, m1, m', rows, k, alive, now);
      assert forall i :: 0 < i < |rows| ==> rows[i] == rows[1..][i - 1];
    }
  }

  lemma PrefixStep(m: map<JobID, JobRow>, m1: map<JobID, JobRow>, m': map<JobID, JobRow>, rows: seq<JobRow>, k: nat,
                   alive: set<ContainerID>, now: Time)
    requires 0 < k <= |rows| && Listing(m, rows)
    requires m1 == m[rows[0].id := RecoveredRow(rows[0], alive, now)]
    requires RecoveredUpTo(m1, m', rows[1..], k - 1, alive, now)
    ensures RecoveredUpTo(m, m', rows, k, alive, now)
  {
    forall i | 0 <= i < k ensures rows[i].id in m' && m'[rows[i].id] == RecoveredRow(rows[i], alive, now) {
      if i > 0 {
        assert rows[i] == rows[1..][i - 1];
      } else {
        assert forall j :: 0 <= j < k - 1 ==> rows[1..][j].id != rows[0].id;
      }
    }
    forall id | id in m && (forall i :: 0 <= i < k ==> rows[i].id != id) ensures m'[id] == m[id] {
      assert rows[0].id != id;
      assert forall j :: 0 <= j < k - 1 ==> rows[1..][j] == rows[j + 1];
    }
  }

  /** The table after a recovery that met no error, whatever order the rows were listed in. */
  function Recovered(m: map<JobID, JobRow>, alive: set<ContainerID>, now: Time): map<JobID, JobRow> {
    map id | id in m :: if m[id].status == Running then RecoveredRow(m[id], alive, now) else m[id]
  }

  lemma AllUpToTheEnd(m: map<JobID, JobRow>, m': map<JobID, JobRow>, rows: seq<JobRow>, alive: set<ContainerID>,
                      now: Time, id: JobID)
    requires Keyed(m) && ListsAllRunning(m, rows) && id in m
    requires RecoveredUpTo(m, m', rows, |rows|, alive, now)
    ensures m'[id] == Recovered(m, alive, now)[id]
  {
    if m[id].status == Running {
      assert id in RowsWith(m, Running);
      var i :| 0 <= i < |rows| && rows[i] == m[id];
      assert m'[rows[i].id] == RecoveredRow(rows[i], alive, now);
    } else {
      forall i | 0 <= i < |rows| ensures rows[i].id != id {
        assert rows[i].id in RowsWith(m, Running);
      }
    }
  }

  lemma ReattachRecoversAll(m: map<JobID, JobRow>, rows: seq<JobRow>, alive: set<ContainerID>, t: Trouble, now: Time)
    requires Keyed(m) && ListsAllRunning(m, rows)
    requires forall id :: id in m && m[id].status == Running ==> !Fails(m[id], alive, t)
    ensures ReattachSpec(m, rows, alive, t, now) == (Recovered(m, alive, now), true)
  {
    ReattachRecoversPrefix(m, rows, alive, t, now);
    var (m', ok) := ReattachSpec(m, rows, alive, t, now);
    forall i | 0 <= i < |rows| ensures !Fails(rows[i], alive, t) {
      assert rows[i].id in RowsWith(m, Running);
    }
    forall id | id in m ensures m'[id] == Recovered(m, alive, now)[id] {
      AllUpToTheEnd(m, m', rows, alive, now, id);
    }
    assert m' == Recovered(m, alive, now);
  }

  /** What the loop does with the row at i. */
  lemma ReattachUnfolds(m: map<JobID, JobRow>, rows: seq<JobRow>, i: nat, alive: set<ContainerID>, t: Trouble,
                        now: Time)
    requires i < |rows|
    ensures ReattachSpec(m, rows[i..], alive, t, now)
         == if Fails(rows[i], alive, t) then (m, false)
            else if rows[i].containerID in alive then ReattachSpec(m, rows[i + 1..], alive, t, now)
            else ReattachSpec(m[rows[i].id := Granted(rows[i], ToFailed(GONE_REASON), now)],
                              rows[i + 1..], alive, t, now)
  {
    assert rows[i..][1..] == rows[i + 1..];
  }

  class ReattachRunningJobs {
    const jobs: FakeJobsRepo
    const runner: RunnerService

    constructor (jobs: FakeJobsRepo, runner: RunnerService)
      ensures this.jobs == jobs && this.runner == runner
    {
      this.jobs, this.runner := jobs, runner;
    }

    /** refused is the storage's answer. */
    method RecordGone(row: JobRow, refused: bool, now: Time) returns (ok: bool)
      requires row.id in jobs.m
      modifies jobs
      ensures ok == !refused
      ensures jobs.m == if refused then old(jobs.m) else old(jobs.m)[row.id := Granted(row, ToFailed(GONE_REASON), now)]
      ensures Keyed(old(jobs.m)) ==> Keyed(jobs.m)
    {
      var j := new Job.FromRow(row);
      var _ := j.MarkFailed(GONE_REASON, now);
      if refused {
        return false;
      }
      var _ := jobs.Update(j);
      return true;
    }

    method Execute(listFails: bool, t: Trouble, now: Time) returns (ok: bool, ghost rows: seq<JobRow>)
      requires Keyed(jobs.m)
      modifies jobs
      ensures if listFails then rows == [] else ListsAllRunning(old(jobs.m), rows)
      ensures jobs.m == ReattachSpec(old(jobs.m), rows, runner.alive, t, now).0
      ensures ok == (!listFails && ReattachSpec(old(jobs.m), rows, runner.alive, t, now).1)
      ensures Keyed(jobs.m)
    {
      if listFails {
        return false, [];
      }
      var running := jobs.ListByStatus(Running);
      rows := running;
      ghost var m0 := jobs.m;
      var i := 0;
      while i < |running|
        invariant 0 <= i <= |running| && Keyed(jobs.m)
        invariant forall k :: i <= k < |running| ==> running[k].id in jobs.m
        invariant ReattachSpec(m0, running, runner.alive, t, now)
               == ReattachSpec(jobs.m, running[i..], runner.alive, t, now)
      {
        ReattachUnfolds(jobs.m, running, i, runner.alive, t, now);
        if running[i].containerID in t.broken {
          return false, running;
        }
        var alive := runner.Inspect(running[i].containerID);
        if !alive {
          var saved := RecordGone(running[i], running[i].id in t.refused, now);
          if !saved {
            return false, running;
          }
        }
        i := i + 1;
      }
      return true, running;
    }
  }

  // ---- reattach as a run of the interleaving model ----

  lemma LoopIsARun(c: Config, s0: State, s: State, rows: seq<JobRow>, t: Trouble, now: Time) returns (s': State)
    requires Leads(c, s0, s) && s == LoopOn(s, rows, now)
    requires forall i :: 0 <= i < |rows| ==> rows[i].id in s.jobs && rows[i].status == Running
    ensures Leads(c, s0, s') && s'.containers == s.containers && s'.reattach == None
    ensures s'.jobs == ReattachSpec(s.jobs, rows, AliveOf(s.containers), t, now).0
    decreases |rows|
  {
    hide Leads, Granted;
    s' := s;
    if rows != [] {
      var seen, alive := rows[0].containerID !in t.broken, rows[0].containerID in AliveOf(s.containers);
      GrantedKeepsId(rows[0], ToFailed(GONE_REASON), now);
      Then(c, s0, s, ReattachInspect(seen));
      s' := DoReattachInspect(s, seen);
      if seen && !alive {
        Then(c, s0, s', ReattachSave(rows[0].id !in t.refused));
        s' := DoReattachSave(s', rows[0].id !in t.refused);
      }
      if !Fails(rows[0], AliveOf(s.containers), t) {
        s' := LoopIsARun(c, s0, s', rows[1..], t, now);
      }
    }
  }

  /** The recovery loop, run alone, is a run of the model as well, whichever call stops it. */
  lemma ReattachIsARun(c: Config, s: State, ids: seq<JobID>, t: Trouble, now: Time) returns (s': State)
    requires s.reattach.None? && ListsRunning(s.jobs, ids) && s.clock <= now
    requires forall id :: id in s.jobs ==> s.jobs[id].id == id
    ensures Leads(c, s, s') && s'.containers == s.containers && s'.reattach == None
    ensures s'.jobs == ReattachSpec(s.jobs, RowsOf(s.jobs, ids), AliveOf(s.containers), t, now).0
  {
    hide Leads, Granted;
    Stay(c, s);
    Then(c, s, s, ReattachList(ids));
    var s1 := DoReattachList(s, ids);
    Then(c, s, s1, Tick(now - s.clock));
    var s2 := s1.(clock := now);
    Then(c, s, s2, ReattachClock);
    s' := LoopIsARun(c, s, LoopOn(s2, RowsOf(s.jobs, ids), now), RowsOf(s.jobs, ids), t, now);
  }

  lemma {:induction false} OnceEach<T>(xs: seq<T>)
    requires forall i, j :: 0 <= i < j < |xs| ==> xs[i] != xs[j]
    ensures |set x | x in xs| == |xs|
    decreases |xs|
  {
    if xs != [] {
      var front, last := xs[..|xs| - 1], xs[|xs| - 1];
      OnceEach(front);
      assert (set x | x in xs) == (set x | x in front) + {last};
    }
  }

  lemma RunningIdsAre(m: map<JobID, JobRow>, ids: seq<JobID>)
    requires ListsRunning(m, ids)
    ensures |ids| == |(m.Keys - {}) * RowsWith(m, Running)|
    ensures forall id :: id in RowsWith(m, Running) <==> id in ids
  {
    OnceEach(ids);
    assert (set x | x in ids) == RowsWith(m, Running);
    assert (m.Keys - {}) * RowsWith(m, Running) == RowsWith(m, Running);
  }

  lemma RowsAreListing(m: map<JobID, JobRow>, ids: seq<JobID>)
    requires Keyed(m) && ListsRunning(m, ids)
    ensures Listing(m, RowsOf(m, ids))
    ensures forall id :: id in ids ==> m[id] in RowsOf(m, ids)
  {
    var rows := RowsOf(m, ids);
    forall id | id in ids ensures m[id] in rows {
      var i :| 0 <= i < |ids| && ids[i] == id;
      assert rows[i] == m[id];
    }
  }

  /** What the step system may list is what the repository's query returns: all running rows, each once. */
  lemma ListingsAgree(m: map<JobID, JobRow>, ids: seq<JobID>)
    requires Keyed(m) && ListsRunning(m, ids)
    ensures ListsAllRunning(m, RowsOf(m, ids))
  {
    hide RowsWith, Listing;
    RunningIdsAre(m, ids);
    RowsAreListing(m, ids);
  }

  // ---- the secrets directories ----

  const SUFFIX := ".secrets"

  /** The pattern "*.secrets". */
  predicate IsSecrets(name: string) {
    |name| >= |SUFFIX| && name[|name| - |SUFFIX|..] == SUFFIX
  }

  function SecretsFor(id: JobID): string {
    id + SUFFIX
  }

  function JobOf(name: string): JobID
    requires IsSecrets(name)
  {
    name[..|name| - |SUFFIX|]
  }

  /** Job ids and secrets directories correspond one to one. */
  lemma SecretsNames(id: JobID, name: string)
    ensures IsSecrets(SecretsFor(id)) && JobOf(SecretsFor(id)) == id && SecretsFor(id) == id + ".secrets"
    ensures IsSecrets(name) ==> SecretsFor(JobOf(name)) == name
    ensures IsSecrets(name) <==> exists job: JobID :: name == job + ".secrets"
  {
    var n := SecretsFor(id);
    assert n[|n| - |SUFFIX|..] == SUFFIX;
    if job: JobID :| name == job + ".secrets" {
      assert name[|name| - |SUFFIX|..] == SUFFIX;
    }
    if IsSecrets(name) {
      assert name == name[..|name| - |SUFFIX|] + name[|name| - |SUFFIX|..];
      assert name == JobOf(name) + ".secrets";
    }
  }

  /** Where writing the secrets can fail: only the first call leaves nothing behind. */
  datatype WriteFault = NoFault | MkdirFails | ChmodFails | TokenFails | KeyFails

  /** The entries of the work directory. */
  class WorkDir {
    var entries: set<string>

    constructor (entries: set<string>)
      ensures this.entries == entries
    {
      this.entries := entries;
    }

    /** Creates the directory and writes the two files; on any failure the name is lost. */
    method WriteSecrets(id: JobID, fault: WriteFault) returns (dir: string, ok: bool)
      modifies this
      ensures ok <==> fault == NoFault
      ensures dir == if ok then SecretsFor(id) else ""
      ensures entries == if fault == MkdirFails then old(entries) else old(entries) + {SecretsFor(id)}
    {
      var secretsDir := id + SUFFIX;
      if fault == MkdirFails {
        return "", false;
      }
      entries := entries + {secretsDir};
      if fault == ChmodFails {
        return "", false;
      }
      if fault == TokenFails {
        return "", false;
      }
      if fault == KeyFails {
        return "", false;
      }
      return secretsDir, true;
    }

    /** Removing the empty path does nothing. */
    method RemoveAll(name: string)
      modifies this
      ensures entries == if name == "" then old(entries) else old(entries) - {name}
    {
      if name != "" {
        entries := entries - {name};
      }
    }

    /** The directories a start creates and, when it fails, cleans up. The workspace is named by the job;
        creating it or opening it up can fail as well. */
    method StartDirs(id: JobID, workspaceOk: bool, fault: WriteFault, dockerOk: bool) returns (ok: bool)
      requires id != ""
      modifies this
      ensures ok <==> workspaceOk && fault == NoFault && dockerOk
      ensures ok ==> entries == old(entries) + {id, SecretsFor(id)}
      ensures !ok ==> entries - {SecretsFor(id)} == old(entries) - {id, SecretsFor(id)}
      ensures !ok ==> (SecretsFor(id) in entries <==>
                         if workspaceOk && fault != MkdirFails then fault != NoFault
                         else old(SecretsFor(id) in entries))
    {
      assert SecretsFor(id) != id && SecretsFor(id) != "" by {
        assert |SecretsFor(id)| == |id| + |SUFFIX|;
      }
      if !workspaceOk {
        RemoveAll(id);
        return false;
      }
      entries := entries + {id};
      var secretsDir, written := WriteSecrets(id, fault);
      if !written {
        RemoveAll(id);
        RemoveAll(secretsDir);
        return false;
      }
      if !dockerOk {
        RemoveAll(id);
        RemoveAll(secretsDir);
        return false;
      }
      return true;
    }

    /** Removes the secrets directories whose job is not to be kept. Entries in `stuck` cannot be removed. */
    method SweepOrphanSecrets(running: set<JobID>, stuck: set<string>) returns (removed: set<string>)
      modifies this
      ensures removed == (set e | e in old(entries) && Orphan(e, running) && e !in stuck)
      ensures entries == old(entries) - removed
    {
      removed := {};
      var matches := set e | e in entries && IsSecrets(e);
      ghost var all := matches;
      while matches != {}
        invariant matches <= all && all == (set e | e in old(entries) && IsSecrets(e))
        invariant removed == (set e | e in all - matches && Orphan(e, running) && e !in stuck)
        invariant entries == old(entries) - removed
        decreases matches
      {
        var dir :| dir in matches;
        matches := matches - {dir};
        var jobID := dir[..|dir| - |SUFFIX|];
        if jobID !in running && dir !in stuck {
          entries := entries - {dir};
          removed := removed + {dir};
        }
      }
    }
  }

  predicate Orphan(name: string, running: set<JobID>) {
    IsSecrets(name) && JobOf(name) !in running
  }

  // ---- the whole startup ----

  /** The table and the entries after a startup. An error of the first part is logged and does not keep
      the second from running; if the running rows cannot be listed for it, nothing is swept. */
  function StartupSpec(m: map<JobID, JobRow>, entries: set<string>, rows: seq<JobRow>, alive: set<ContainerID>,
                       t: Trouble, relistFails: bool, stuck: set<string>, now: Time): (map<JobID, JobRow>, set<string>)
  {
    var m' := ReattachSpec(m, rows, alive, t, now).0;
    (m', if relistFails then entries else Swept(entries, m', stuck))
  }

  method Startup(jobs: FakeJobsRepo, runner: RunnerService, work: WorkDir, listFails: bool, t: Trouble,
                 relistFails: bool, stuck: set<string>, now: Time)
    returns (ghost rows: seq<JobRow>)
    requires Keyed(jobs.m)
    modifies jobs, work
    ensures Keyed(jobs.m) && (if listFails then rows == [] else ListsAllRunning(old(jobs.m), rows))
    ensures (jobs.m, work.entries)
         == StartupSpec(old(jobs.m), old(work.entries), rows, runner.alive, t, relistFails, stuck, now)
  {
    var reattach := new ReattachRunningJobs(jobs, runner);
    var _, listed := reattach.Execute(listFails, t, now);
    rows := listed;
    if !relistFails {
      SweepUnlessRunning(jobs, work, stuck);
    }
  }

  method SweepUnlessRunning(jobs: FakeJobsRepo, work: WorkDir, stuck: set<string>)
    requires Keyed(jobs.m)
    modifies work
    ensures work.entries == Swept(old(work.entries), jobs.m, stuck)
  {
    var running := jobs.ListByStatus(Running);
    var keep := KeepSet(running);
    KeepIsRunning(jobs.m, running, keep);
    var _ := work.SweepOrphanSecrets(keep, stuck);
  }

  method KeepSet(running: seq<JobRow>) returns (keep: set<JobID>)
    ensures keep == (set k | 0 <= k < |running| :: running[k].id)
  {
    keep := {};
    var i := 0;
    while i < |running|
      invariant 0 <= i <= |running|
      invariant keep == (set k | 0 <= k < i :: running[k].id)
    {
      keep := keep + {running[i].id};
      i := i + 1;
    }
  }

  lemma KeepIsRunning(m: map<JobID, JobRow>, running: seq<JobRow>, keep: set<JobID>)
    requires Keyed(m) && ListsAllRunning(m, running) && keep == (set k | 0 <= k < |running| :: running[k].id)
    ensures keep == RowsWith(m, Running)
  {
    forall id | id in keep ensures id in RowsWith(m, Running) {
      var k :| 0 <= k < |running| && running[k].id == id;
      assert running[k].id in RowsWith(m, Running);
    }
    forall id | id in RowsWith(m, Running) ensures id in keep {
      assert id in RowsWith(m, Running) && m[id] in running;
      var k :| 0 <= k < |running| && running[k] == m[id];
      assert running[k].id in keep;
    }
  }

  /** The entries a startup leaves. */
  function Swept(entries: set<string>, m: map<JobID, JobRow>, stuck: set<string>): set<string> {
    entries - (set e | e in entries && Orphan(e, RowsWith(m, Running)) && e !in stuck)
  }

  /** Rows change only where a running job has lost its container, and then they are failed. */
  lemma RecoveredRows(m: map<JobID, JobRow>, alive: set<ContainerID>, now: Time, later: Time)
    requires Keyed(m)
    ensures Keyed(Recovered(m, alive, now)) && Recovered(m, alive, now).Keys == m.Keys
    ensures forall id :: id in m ==>
              var r := Recovered(m, alive, now)[id];
              if m[id].status == Running && m[id].containerID !in alive
              then r == m[id].(status := Failed, error := "api restarted while runner container gone",
                               finishedAt := Some(now))
              else r == m[id]
    ensures Recovered(Recovered(m, alive, now), alive, later) == Recovered(m, alive, now)
  {
  }

  /** Whatever went wrong before, the sweep removes what it can of the secrets whose job is not recorded
      running, and nothing else: not the log directory beside them, and nothing at all if the running rows
      cannot be listed for it. */
  lemma StartupSpares(m: map<JobID, JobRow>, entries: set<string>, rows: seq<JobRow>, alive: set<ContainerID>,
                      t: Trouble, relistFails: bool, stuck: set<string>, now: Time)
    ensures var (m', left) := StartupSpec(m, entries, rows, alive, t, relistFails, stuck, now);
            && m' == ReattachSpec(m, rows, alive, t, now).0
            && (forall e :: e in left ==> e in entries)
            && (forall e :: e in entries && e !in left ==>
                  !relistFails && e !in stuck && exists job: JobID ::
                    e == job + ".secrets" && !(job in m' && m'[job].status == Running))
            && (forall job: JobID :: job + ".secrets" in left && !relistFails && job + ".secrets" !in stuck ==>
                  job in m' && m'[job].status == Running)
            && ("logs" in entries ==> "logs" in left)
  {
    hide ReattachSpec;
    var (m', left) := StartupSpec(m, entries, rows, alive, t, relistFails, stuck, now);
    forall e | e in entries && e !in left
      ensures !relistFails && e !in stuck
      ensures exists job: JobID :: e == job + ".secrets" && !(job in m' && m'[job].status == Running)
    {
      SecretsNames(JobOf(e), e);
      assert e == JobOf(e) + ".secrets";
    }
    forall job: JobID | job + ".secrets" in left && !relistFails && job + ".secrets" !in stuck
      ensures job in m' && m'[job].status == Running
    {
      SecretsNames(job, job + ".secrets");
    }
    SecretsNames("", "logs");
  }

  /** When every call of the loop succeeds, startup recovers the table whatever order it was listed in, and
      a second startup finds nothing left to do. */
  lemma StartupRecovers(m: map<JobID, JobRow>, rows: seq<JobRow>, alive: set<ContainerID>, t: Trouble,
                        now: Time, rows2: seq<JobRow>, later: Time)
    requires Keyed(m) && ListsAllRunning(m, rows)
    requires forall id :: id in m && m[id].status == Running ==> !Fails(m[id], alive, t)
    requires ListsAllRunning(Recovered(m, alive, now), rows2)
    ensures ReattachSpec(m, rows, alive, t, now) == (Recovered(m, alive, now), true)
    ensures ReattachSpec(Recovered(m, alive, now), rows2, alive, t, later) == (Recovered(m, alive, now), true)
  {
    hide Granted, ListsAllRunning;
    RecoveredRows(m, alive, now, later);
    ReattachRecoversAll(m, rows, alive, t, now);
    ReattachRecoversAll(Recovered(m, alive, now), rows2, alive, t, later);
  }

  /** When every removal succeeds too, the secrets directories left are exactly those whose job was
      recorded running with a live container; no other entry is touched; sweeping again changes nothing. */
  lemma StartupSweeps(m: map<JobID, JobRow>, entries: set<string>, alive: set<ContainerID>, now: Time)
    requires Keyed(m)
    ensures var left := Swept(entries, Recovered(m, alive, now), {});
            && (forall e :: e in left <==> e in entries && (IsSecrets(e) ==> LivesOn(m, alive, JobOf(e))))
            && Swept(left, Recovered(m, alive, now), {}) == left
  {
    RecoveredRows(m, alive, now, now);
    forall e | e in entries && IsSecrets(e)
      ensures Orphan(e, RowsWith(Recovered(m, alive, now), Running)) <==> !LivesOn(m, alive, JobOf(e))
    {
    }
  }

  /** The whole of startup at once: when every call succeeds, the table is the recovered one, the secrets
      left are those of jobs recorded running with a live container, and a second startup, whatever order
      it lists the rows in, changes neither. */
  lemma StartupIsIdempotent(m: map<JobID, JobRow>, entries: set<string>, rows: seq<JobRow>, alive: set<ContainerID>,
                            t: Trouble, now: Time, rows2: seq<JobRow>, later: Time)
    requires Keyed(m) && ListsAllRunning(m, rows)
    requires forall id :: id in m && m[id].status == Running ==> !Fails(m[id], alive, t)
    requires ListsAllRunning(Recovered(m, alive, now), rows2)
    ensures var (m', left) := StartupSpec(m, entries, rows, alive, t, false, {}, now);
            && m' == Recovered(m, alive, now)
            && (forall e :: e in left <==> e in entries && (IsSecrets(e) ==> LivesOn(m, alive, JobOf(e))))
            && StartupSpec(m', left, rows2, alive, t, false, {}, later) == (m', left)
  {
    hide Recovered, ListsAllRunning, Swept;
    StartupRecovers(m, rows, alive, t, now, rows2, later);
    StartupSweeps(m, entries, alive, now);
  }

  predicate LivesOn(m: map<JobID, JobRow>, alive: set<ContainerID>, id: JobID) {
    id in m && m[id].status == Running && m[id].containerID in alive
  }

  /** What a failed secrets write leaves behind is removed by the next startup, unless the job runs. */
  lemma LeftoverIsSwept(m: map<JobID, JobRow>, entries: set<string>, id: JobID)
    ensures SecretsFor(id) in Swept(entries + {SecretsFor(id)}, m, {}) <==> id in m && m[id].status == Running
  {
    SecretsNames(id, SecretsFor(id));
  }
}
