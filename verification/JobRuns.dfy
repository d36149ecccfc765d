/** Runs that show how far the unconditional guarantees fail, each from an empty store and with the
    same first request: one whose container is being started while its row is still queued. */
module JobRuns {
  import opened Wrappers
  import opened JobDomain
  import opened JobProtocol
  import opened JobInvariant
  import opened JobLifecycle
  import opened JobOutcomes
  import opened JobSettled
  import opened JobsRepo
  import opened UseCases
  import opened Sequential

  const REQUEST := EnqueueInput("u", "o/r", "main", "work", SpecSource("path", "x.md"), "", "")
  const CALM := Storage(None, None, None, None)
  const SUCCESS := RunnerResult("a", 0, "pr", "", "https://example.com/hook", "")

  /** Job a between the start of its container and its last Update. */
  ghost predicate Starting(c: Config, s: State) {
    && "a" in s.jobs && "a" in s.enqueues && s.jobs.Keys == s.enqueues.Keys
    && s.clock == 0 && s.cancels == map[]
    && s.enqueues["a"].pc == SavingRunning && s.enqueues["a"].seen == 0
    && s.enqueues["a"].container == Some("ca") && s.enqueues["a"].row == RowFor(c, "a", REQUEST, 0)
  }

  lemma FirstStart(c: Config) returns (s: State)
    ensures Leads(c, Init(0), s) && Starting(c, s)
    ensures s.jobs == map["a" := RowFor(c, "a", REQUEST, 0)] && s.hooks == []
    ensures s.containers == map["ca" := Container(SpecFor("a", REQUEST), true, Waiting)]
  {
    hide Leads, RowFor, SpecFor;
    var s0 := Init(0);
    assert ActiveFor(s0.jobs, "u") == {} && ActiveAll(s0.jobs) == {};
    AdmissionMeans(c, s0.jobs, "a", REQUEST, 0, CALM);
    var s1 := ToTheCredentials(c, s0, REQUEST, "a", 0, CALM);
    assert s1.enqueues.Keys == (s1.enqueues - {"a"}).Keys + {"a"};
    s := ToTheRuntime(c, s0, s1, "a", Ok("ca"));
  }

  // ---- a success that is reported too early ----

  /** The container of a is done before its request has written "running": the report is there to be
      delivered, and the row is still queued. Delivered now, the job can never succeed. */
  lemma EarlySuccessRun(c: Config) returns (s: State)
    ensures Leads(c, Init(0), s) && Enabled(c, s, Report("ca", SUCCESS)) && SUCCESS.exitCode == 0
    ensures "a" in s.jobs && s.jobs["a"].status == Queued
    ensures !CanSucceed(c, DoReport(s, "ca", SUCCESS), "a")
  {
    hide CanSucceed, Leads;
    var s1 := FirstStart(c);
    Then(c, Init(0), s1, ContainerExits("ca"));
    s := Kill(s1, "ca");
    LeadsToReachable(c, s);
    ReportDecides(c, s, "ca", SUCCESS);
  }

  lemma LeadsToReachable(c: Config, s: State)
    requires Leads(c, Init(0), s)
    ensures Reachable(c, s)
  {
  }

  // ---- a container no row knows of ----

  /** The process dies at that point: the row stays queued and names no container, which goes on. The
      report it will have is lost, so the job can never succeed. */
  lemma StrandedRun(c: Config) returns (s: State)
    ensures Leads(c, Init(0), s) && "a" in s.jobs && s.jobs["a"].status == Queued && s.jobs["a"].containerID == ""
    ensures "ca" in s.containers && s.containers["ca"].alive && s.containers["ca"].spec.jobID == "a"
    ensures "a" in s.enqueues && s.enqueues["a"].pc == Ended(Killed) && s.enqueues["a"].container == Some("ca")
    ensures !CanSucceed(c, s, "a")
  {
    hide Leads, CanSucceed;
    var s1 := FirstStart(c);
    Then(c, Init(0), s1, Restart);
    s := DoRestart(s1);
    LeadsToReachable(c, s1);
    RestartDecides(c, s1, "a");
  }

  // ---- a running row nobody looks after ----

  lemma RunningStart(c: Config) returns (s: State)
    ensures Leads(c, Init(0), s) && s.clock == 0 && s.hooks == [] && s.cancels == map[]
    ensures s.jobs.Keys == {"a"} == s.enqueues.Keys && s.enqueues["a"].pc == Ended(Persisted)
    ensures var r := s.jobs["a"]; r.id == "a" && r.status == Running && r.containerID == "ca" && r.userID == "u"
    ensures s.containers == map["ca" := Container(SpecFor("a", REQUEST), true, Waiting)]
  {
    hide Leads;
    var s1 := FirstStart(c);
    Then(c, Init(0), s1, SaveRunning("a", 0, true));
    s := DoSaveRunning(s1, "a", 0, true);
  }

  lemma RestartedRun(c: Config) returns (s: State)
    ensures Leads(c, Init(0), s) && s.clock == 0 && s.cancels == map[] && s.reattach == None
    ensures s.jobs.Keys == {"a"} == s.enqueues.Keys && s.enqueues["a"].pc == Ended(Persisted)
    ensures s.jobs["a"].status == Running && s.jobs["a"].containerID == "ca"
    ensures s.containers == map["ca" := Container(SpecFor("a", REQUEST), true, Gone)]
  {
    hide Leads, SpecFor;
    var s1 := RunningStart(c);
    Then(c, Init(0), s1, Restart);
    s := DoRestart(s1);
  }

  /** The process comes up again and lists a as running. */
  lemma ListedAfterRestart(c: Config) returns (s: State)
    ensures Leads(c, Init(0), s) && s.cancels == map[] && s.jobs.Keys == {"a"} == s.enqueues.Keys
    ensures s.enqueues["a"].pc == Ended(Persisted)
    ensures s.jobs["a"].status == Running && s.jobs["a"].containerID == "ca"
    ensures s.containers == map["ca" := Container(SpecFor("a", REQUEST), true, Gone)]
    ensures s.reattach == Some(Looping([s.jobs["a"]], 0, false))
  {
    hide Leads, SpecFor;
    var s1 := RestartedRun(c);
    Then(c, Init(0), s1, ReattachList(["a"]));
    var s2 := DoReattachList(s1, ["a"]);
    assert RowsOf(s1.jobs, ["a"]) == [s1.jobs["a"]];
    Then(c, Init(0), s2, ReattachClock);
    s := LoopOn(s2, [s1.jobs["a"]], 0);
  }

  /** The startup recovery finds the container of a alive and passes on; afterwards the container exits.
      The row is running, nobody looks after it, and so it stays (`SkippedStays`). */
  lemma SkippedRun(c: Config) returns (s: State)
    ensures Leads(c, Init(0), s) && Reachable(c, s) && s.reattach == None
    ensures Unattended(s, "a") && s.jobs["a"].status == Running && s.jobs["a"].containerID == "ca" && !IsAlive(s, "ca")
  {
    hide Leads, SpecFor, Reachable;
    var s1 := ListedAfterRestart(c);
    Then(c, Init(0), s1, ReattachInspect(true));
    var s2 := DoReattachInspect(s1, true);
    Then(c, Init(0), s2, ContainerExits("ca"));
    s := Kill(s2, "ca");
    LeadsToReachable(c, s);
  }

  // ---- a cancel that comes after the success ----

  /** A cancel request has read the running row when the success is stored and sent; then it writes. */
  lemma LateCancelRun(c: Config) returns (s: State)
    requires c.webhookWired
    ensures Leads(c, Init(0), s) && |s.hooks| == 1 && s.hooks[0].row.id == "a" && s.hooks[0].row.status == Succeeded
    ensures "a" in s.jobs && s.jobs["a"].status == Cancelled
  {
    hide Leads;
    var s1 := SucceededBesideCancel(c);
    Then(c, Init(0), s1, CancelStop(0, true));
    var s2 := DoCancelStop(s1, 0, true);
    Then(c, Init(0), s2, CancelSave(0, 0, true));
    s := DoCancelSave(s2, 0, 0, true);
  }

  lemma ReadBesideRunning(c: Config) returns (s: State)
    ensures Leads(c, Init(0), s) && s.clock == 0 && s.hooks == [] && s.jobs.Keys == {"a"}
    ensures s.jobs["a"].id == "a" && s.jobs["a"].status == Running
    ensures s.cancels == map[0 := CancelThread(s.jobs["a"], true, 0)]
    ensures s.containers == map["ca" := Container(SpecFor("a", REQUEST), true, Waiting)]
  {
    hide Leads;
    var s1 := RunningStart(c);
    Then(c, Init(0), s1, CancelRead(0, "a", "u"));
    s := DoCancelRead(s1, 0, "a", "u");
  }

  lemma SucceededBesideCancel(c: Config) returns (s: State)
    requires c.webhookWired
    ensures Leads(c, Init(0), s) && s.clock == 0 && s.jobs.Keys == {"a"} && s.cancels.Keys == {0}
    ensures |s.hooks| == 1 && s.hooks[0].row.id == "a" && s.hooks[0].row.status == Succeeded
    ensures var th := s.cancels[0];
            th.mustStop && th.seen == 0 && th.copy.id == "a" && th.copy.status == Running
  {
    hide Leads;
    var s0 := ReadBesideRunning(c);
    Then(c, Init(0), s0, ContainerExits("ca"));
    var s1 := Kill(s0, "ca");
    Then(c, Init(0), s1, Report("ca", SUCCESS));
    var s2 := DoReport(s1, "ca", SUCCESS);
    Then(c, Init(0), s2, SaveCompletion("ca", 0, true));
    var s3 := DoSaveCompletion(c, s2, "ca", 0, true);
    Then(c, Init(0), s3, Notify("ca"));
    s := DoNotify(s3, "ca");
  }

  // ---- revived rows exceed any cap, by any number ----

  /** The caps leave room for n jobs. */
  predicate RoomFor(c: Config, n: nat) {
    (c.maxPerUser > 0 ==> n <= c.maxPerUser) && (c.maxGlobal > 0 ==> n <= c.maxGlobal)
  }

  function Name(n: nat): (name: string)
    ensures |name| == n
  {
    seq(n, i => 'b')
  }

  /** A request that has started its container and has yet to write so. */
  ghost predicate AboutToRun(c: Config, id: JobID, th: EnqueueThread) {
    && th.pc == SavingRunning && th.seen == 0 && th.container.Some?
    && th.row == RowFor(c, id, REQUEST, 0)
  }

  ghost predicate HeldThreads(c: Config, ths: Threads, held: set<JobID>) {
    forall id :: id in held ==> id in ths && AboutToRun(c, id, ths[id])
  }

  /** The rows in held are cancelled, all others run, for one user; every name is shorter than n. */
  ghost predicate HeldRows(m: map<JobID, JobRow>, held: set<JobID>, n: nat) {
    && (forall id :: id in held ==> id in m && m[id].status == Cancelled)
    && (forall id :: id in m ==> m[id].userID == "u" && |id| < n && (id !in held ==> m[id].status == Running))
  }

  ghost predicate ShortNames(cids: set<ContainerID>, n: nat) {
    forall cid :: cid in cids ==> |cid| < n
  }

  /** The jobs in held were cancelled while their containers were being started; the others, r of them,
      run, all for the same user. Every name so far is shorter than n. */
  ghost predicate Held(c: Config, s: State, held: set<JobID>, r: nat, n: nat) {
    && s.clock == 0 && s.cancels == map[] && s.jobs.Keys == s.enqueues.Keys && n > 0
    && held <= s.finished && |RowsWith(s.jobs, Running)| == r
    && HeldThreads(c, s.enqueues, held) && HeldRows(s.jobs, held, n) && ShortNames(s.containers.Keys, n)
  }

  lemma HeldIsActive(c: Config, s: State, held: set<JobID>, r: nat, n: nat)
    requires Held(c, s, held, r, n)
    ensures |ActiveFor(s.jobs, "u")| == r && |ActiveAll(s.jobs)| == r
  {
    assert ActiveFor(s.jobs, "u") == RowsWith(s.jobs, Running) == ActiveAll(s.jobs);
  }

  /** Another request gets past the checks. */
  lemma AdmitOne(c: Config, s0: State, s: State, held: set<JobID>, r: nat, n: nat) returns (s': State)
    requires Leads(c, s0, s) && Held(c, s, held, r, n) && RoomFor(c, r + 1)
    ensures Leads(c, s0, s') && SameOutside(s, s') && s'.finished == s.finished && s'.clock == 0
    ensures s'.jobs == s.jobs[Name(n) := RowFor(c, Name(n), REQUEST, 0)]
    ensures s'.enqueues.Keys == s.enqueues.Keys + {Name(n)}
    ensures forall i :: i in s.enqueues ==> i in s'.enqueues && s'.enqueues[i] == s.enqueues[i]
    ensures AtPc(s', Name(n), FetchingCreds) && s'.enqueues[Name(n)].row == RowFor(c, Name(n), REQUEST, 0)
    ensures s'.enqueues[Name(n)].input == REQUEST
  {
    hide Leads, RowsWith, RowFor, ActiveFor, ActiveAll, AdmissionOf, AboutToRun;
    HeldIsActive(c, s, held, r, n);
    AdmissionMeans(c, s.jobs, Name(n), REQUEST, 0, CALM);
    s' := ToTheCredentials(c, s, REQUEST, Name(n), 0, CALM);
    LeadsTo(c, s0, s, s');
    OthersAreKept(s.enqueues, s'.enqueues, Name(n));
  }

  lemma OthersAreKept(ths: Threads, ths': Threads, id: JobID)
    requires id in ths' && ths' - {id} == ths
    ensures ths'.Keys == ths.Keys + {id}
    ensures forall i :: i in ths ==> i in ths' && ths'[i] == ths[i]
  {
    assert ths'.Keys == (ths' - {id}).Keys + {id};
    forall i | i in ths ensures i in ths' && ths'[i] == ths[i] {
      assert (ths' - {id})[i] == ths[i];
    }
  }

  lemma NewRowIs(c: Config, id: JobID)
    ensures var row := RowFor(c, id, REQUEST, 0);
            row.id == id && row.status == Queued && row.userID == "u" && row.containerID == ""
  {
  }

  /** A request is cancelled while its container is being started. */
  lemma HoldOne(c: Config, s0: State, s: State, held: set<JobID>, n: nat) returns (s': State)
    requires Leads(c, s0, s) && Held(c, s, held, 0, n) && RoomFor(c, 1)
    ensures Leads(c, s0, s') && Held(c, s', held + {Name(n)}, 0, n + 1) && Name(n) !in held
  {
    hide Leads, Held, RowFor;
    HeldIsKeyed(c, s, held, 0, n);
    var s1 := AdmitOne(c, s0, s, held, 0, n);
    s' := StartAndCancel(c, s0, s, s1, n);
    HeldGrows(c, s, s', held, n);
  }

  /** What holding the next request does to the state. */
  ghost predicate HoldsNext(c: Config, s: State, s': State, n: nat) {
    && s'.clock == 0 && s'.cancels == map[] && s'.finished == s.finished + {Name(n)}
    && s'.jobs == s.jobs[Name(n) := Granted(RowFor(c, Name(n), REQUEST, 0), ToCancelled, 0)]
    && s'.enqueues.Keys == s.enqueues.Keys + {Name(n)}
    && (forall i :: i in s.enqueues && i != Name(n) ==> s'.enqueues[i] == s.enqueues[i])
    && AboutToRun(c, Name(n), s'.enqueues[Name(n)])
    && s'.containers.Keys == s.containers.Keys + {Name(n)}
  }

  /** A queued job is cancelled by its owner; nothing but its row and the history changes. */
  lemma CancelQueued(c: Config, s0: State, s: State, id: JobID) returns (s': State)
    requires Leads(c, s0, s) && s.clock == 0 && s.cancels == map[] && id in s.jobs && id != ""
    requires var r := s.jobs[id]; r.id == id && r.status == Queued && r.userID == "u" && r.containerID == ""
    ensures Leads(c, s0, s')
    ensures s' == s.(jobs := s.jobs[id := Granted(s.jobs[id], ToCancelled, 0)], finished := s.finished + {id})
  {
    hide Leads, After, ValidRun;
    Then(c, s0, s, CancelRead(0, id, "u"));
    var s1 := DoCancelRead(s, 0, id, "u");
    Then(c, s0, s1, CancelSave(0, 0, true));
    s' := DoCancelSave(s1, 0, 0, true);
    assert s1.cancels - {0} == map[];
  }

  lemma StartAndCancel(c: Config, s0: State, s: State, s1: State, n: nat) returns (s': State)
    requires s.cancels == map[] && n > 0 && Name(n) !in s.containers
    requires Leads(c, s0, s1) && SameOutside(s, s1) && s1.finished == s.finished && s1.clock == 0
    requires s1.jobs == s.jobs[Name(n) := RowFor(c, Name(n), REQUEST, 0)]
    requires s1.enqueues.Keys == s.enqueues.Keys + {Name(n)}
    requires forall i :: i in s.enqueues ==> i in s1.enqueues && s1.enqueues[i] == s.enqueues[i]
    requires AtPc(s1, Name(n), FetchingCreds) && s1.enqueues[Name(n)].row == RowFor(c, Name(n), REQUEST, 0)
    ensures Leads(c, s0, s') && HoldsNext(c, s, s', n)
  {
    hide Leads, RowFor, SpecFor, Granted;
    NewRowIs(c, Name(n));
    var s2 := ToTheRuntime(c, s0, s1, Name(n), Ok(Name(n)));
    s' := CancelQueued(c, s0, s2, Name(n));
  }

  lemma CancelledRowIs(c: Config, id: JobID)
    ensures var row := Granted(RowFor(c, id, REQUEST, 0), ToCancelled, 0);
            row.status == Cancelled && row.userID == "u"
  {
  }

  lemma NoneMoreRuns(m: map<JobID, JobRow>, id: JobID, row: JobRow)
    requires id !in m && row.status != Running
    ensures RowsWith(m[id := row], Running) == RowsWith(m, Running)
  {
  }

  lemma ThreadsStay(c: Config, ths: Threads, ths': Threads, held: set<JobID>)
    requires HeldThreads(c, ths, held) && forall i :: i in held ==> i in ths' && ths'[i] == ths[i]
    ensures HeldThreads(c, ths', held)
  {
  }

  lemma OneMoreRow(m: map<JobID, JobRow>, held: set<JobID>, n: nat, row: JobRow)
    requires HeldRows(m, held, n) && row.userID == "u"
    ensures Name(n) !in m && Name(n) !in held
    ensures row.status == Cancelled ==> HeldRows(m[Name(n) := row], held + {Name(n)}, n + 1)
    ensures row.status == Running ==> HeldRows(m[Name(n) := row], held, n + 1)
  {
    assert |Name(n)| == n;
  }

  lemma OneMoreName(cids: set<ContainerID>, n: nat)
    requires ShortNames(cids, n)
    ensures Name(n) !in cids && ShortNames(cids + {Name(n)}, n + 1)
  {
    assert |Name(n)| == n;
  }

  lemma HeldGrows(c: Config, s: State, s': State, held: set<JobID>, n: nat)
    requires Held(c, s, held, 0, n) && HoldsNext(c, s, s', n)
    ensures Held(c, s', held + {Name(n)}, 0, n + 1) && Name(n) !in held
  {
    hide RowsWith, RowFor, Granted, HeldThreads, HeldRows, ShortNames;
    CancelledRowIs(c, Name(n));
    HeldAreThreads(c, s.enqueues, held);
    OneMoreRow(s.jobs, held, n, s'.jobs[Name(n)]);
    OneMoreName(s.containers.Keys, n);
    NoneMoreRuns(s.jobs, Name(n), s'.jobs[Name(n)]);
    ThreadsStay(c, s.enqueues, s'.enqueues, held);
    OneMoreThread(c, s'.enqueues, held, Name(n));
  }

  lemma HeldAreThreads(c: Config, ths: Threads, held: set<JobID>)
    requires HeldThreads(c, ths, held)
    ensures held <= ths.Keys
  {
  }

  lemma OneMoreThread(c: Config, ths: Threads, held: set<JobID>, id: JobID)
    requires HeldThreads(c, ths, held) && id in ths && AboutToRun(c, id, ths[id])
    ensures HeldThreads(c, ths, held + {id})
  {
  }

  /** Another request is served: its row runs, everything else stays. */
  lemma ServeOne(c: Config, s0: State, s: State, held: set<JobID>, r: nat, n: nat) returns (s': State)
    requires Leads(c, s0, s) && Held(c, s, held, r, n) && RoomFor(c, r + 1)
    ensures Leads(c, s0, s') && Held(c, s', held, r + 1, n + 1)
  {
    hide Leads, Held, RowFor, LastRow, SpecFor, AboutToRun;
    HeldIsKeyed(c, s, held, r, n);
    NewRowIs(c, Name(n));
    var s1 := AdmitOne(c, s0, s, held, r, n);
    s' := ToTheEnd(c, s0, s1, Name(n), Ok(Name(n)), 0, true);
    HeldServes(c, s, s', held, r, n);
  }

  lemma HeldIsKeyed(c: Config, s: State, held: set<JobID>, r: nat, n: nat)
    requires Held(c, s, held, r, n)
    ensures s.jobs.Keys == s.enqueues.Keys && Name(n) !in s.jobs && Name(n) !in s.containers
    ensures s.cancels == map[] && s.clock == 0 && n > 0
  {
    assert |Name(n)| == n;
  }

  lemma HeldServes(c: Config, s: State, s': State, held: set<JobID>, r: nat, n: nat)
    requires Held(c, s, held, r, n) && s'.clock == 0 && s'.cancels == map[] && s.finished <= s'.finished
    requires s'.jobs == s.jobs[Name(n) := LastRow(RowFor(c, Name(n), REQUEST, 0), Ok(Name(n)), 0)]
    requires s'.enqueues.Keys == s.enqueues.Keys + {Name(n)}
    requires forall i :: i in s.enqueues && i != Name(n) ==> s'.enqueues[i] == s.enqueues[i]
    requires s'.containers.Keys == s.containers.Keys + {Name(n)}
    ensures Held(c, s', held, r + 1, n + 1)
  {
    hide RowsWith, RowFor, LastRow, HeldThreads, HeldRows, ShortNames;
    HeldAreThreads(c, s.enqueues, held);
    RunningRowIs(c, Name(n), Name(n));
    LastIsGranted(c, Name(n));
    OneMoreRow(s.jobs, held, n, s'.jobs[Name(n)]);
    OneMoreName(s.containers.Keys, n);
    NewIsRunning(c, s.jobs, s'.jobs, Name(n), Name(n));
    ThreadsStay(c, s.enqueues, s'.enqueues, held);
  }

  lemma LastIsGranted(c: Config, id: JobID)
    ensures LastRow(RowFor(c, id, REQUEST, 0), Ok(id), 0) == Granted(RowFor(c, id, REQUEST, 0), ToRunning(id), 0)
  {
  }

  lemma NewIsRunning(c: Config, m: map<JobID, JobRow>, m': map<JobID, JobRow>, id: JobID, cid: ContainerID)
    requires id !in m
    requires m'.Keys == m.Keys + {id} && (forall i :: i in m ==> m'[i] == m[i])
    requires m'[id] == LastRow(RowFor(c, id, REQUEST, 0), Ok(cid), 0)
    ensures m'[id].status == Running && m'[id].userID == "u"
    ensures |RowsWith(m', Running)| == |RowsWith(m, Running)| + 1
  {
    assert RowsWith(m', Running) == RowsWith(m, Running) + {id};
  }

  /** A held request writes its last row over the cancelled one. */
  lemma ReviveOne(c: Config, s0: State, s: State, held: set<JobID>, r: nat, n: nat, id: JobID) returns (s': State)
    requires Leads(c, s0, s) && Held(c, s, held, r, n) && id in held
    ensures Leads(c, s0, s') && Held(c, s', held - {id}, r + 1, n) && s.finished <= s'.finished
    ensures RowsWith(s'.jobs, Running) == RowsWith(s.jobs, Running) + {id}
  {
    hide Leads, RowsWith, Held, DoSaveRunning;
    RevivedRow(c, s, held, r, n, id);
    Then(c, s0, s, SaveRunning(id, 0, true));
    s' := DoSaveRunning(s, id, 0, true);
  }

  lemma RevivedRow(c: Config, s: State, held: set<JobID>, r: nat, n: nat, id: JobID)
    requires Held(c, s, held, r, n) && id in held
    ensures Enabled(c, s, SaveRunning(id, 0, true))
    ensures var s' := DoSaveRunning(s, id, 0, true);
            && Held(c, s', held - {id}, r + 1, n) && s.finished <= s'.finished
            && RowsWith(s'.jobs, Running) == RowsWith(s.jobs, Running) + {id}
  {
    hide RowsWith, RowFor, Granted, HeldThreads, HeldRows, ShortNames;
    HeldFacts(c, s, held, n, id);
    var th := s.enqueues[id];
    var row := Granted(th.row, ToRunning(th.container.value), 0);
    RunningRowIs(c, id, th.container.value);
    OneMoreRuns(s.jobs, id, row);
    OneLessHeld(c, s.jobs, s.enqueues, held, n, id, row, th.(pc := Ended(Persisted)));
  }

  lemma HeldFacts(c: Config, s: State, held: set<JobID>, n: nat, id: JobID)
    requires HeldThreads(c, s.enqueues, held) && HeldRows(s.jobs, held, n) && id in held
    ensures id in s.jobs && s.jobs[id].status == Cancelled && id in s.enqueues && AboutToRun(c, id, s.enqueues[id])
  {
  }

  lemma OneLessHeld(c: Config, m: map<JobID, JobRow>, ths: Threads, held: set<JobID>, n: nat, id: JobID,
                    row: JobRow, th: EnqueueThread)
    requires HeldThreads(c, ths, held) && HeldRows(m, held, n) && id in held
    requires row.status == Running && row.userID == "u"
    ensures HeldThreads(c, ths[id := th], held - {id}) && HeldRows(m[id := row], held - {id}, n)
  {
    hide AboutToRun;
  }

  lemma RunningRowIs(c: Config, id: JobID, cid: ContainerID)
    ensures var row := Granted(RowFor(c, id, REQUEST, 0), ToRunning(cid), 0);
            row.id == id && row.status == Running && row.userID == "u"
  {
  }

  lemma OneMoreRuns(m: map<JobID, JobRow>, id: JobID, row: JobRow)
    requires id in m && m[id].status != Running && row.status == Running
    ensures RowsWith(m[id := row], Running) == RowsWith(m, Running) + {id}
    ensures |RowsWith(m[id := row], Running)| == |RowsWith(m, Running)| + 1
  {
    assert RowsWith(m[id := row], Running) == RowsWith(m, Running) + {id};
  }

  lemma HeldAtStart(c: Config)
    ensures Held(c, Init(0), {}, 0, 1)
  {
    assert RowsWith(map[], Running) == {};
  }

  lemma {:induction false} HoldMany(c: Config, s0: State, k: nat) returns (s: State, held: set<JobID>)
    requires RoomFor(c, 1) && s0 == Init(0)
    ensures Leads(c, s0, s) && Held(c, s, held, 0, k + 1) && |held| == k
    decreases k
  {
    hide Leads, Held;
    if k == 0 {
      s, held := s0, {};
      Stay(c, s0);
      HeldAtStart(c);
    } else {
      var s1, held1 := HoldMany(c, s0, k - 1);
      s := HoldOne(c, s0, s1, held1, k);
      held := held1 + {Name(k)};
    }
  }

  lemma {:induction false} ServeMany(c: Config, s0: State, s: State, held: set<JobID>, r: nat, n: nat, top: nat)
    returns (s': State, n': nat)
    requires Leads(c, s0, s) && Held(c, s, held, r, n) && r <= top && RoomFor(c, top)
    ensures Leads(c, s0, s') && Held(c, s', held, top, n')
    decreases top - r
  {
    hide Leads, Held;
    s', n' := s, n;
    if r < top {
      s' := ServeOne(c, s0, s, held, r, n);
      s', n' := ServeMany(c, s0, s', held, r + 1, n + 1, top);
    }
  }

  lemma {:induction false} ReviveAll(c: Config, s0: State, s: State, held: set<JobID>, r: nat, n: nat)
    returns (s': State)
    requires Leads(c, s0, s) && Held(c, s, held, r, n)
    ensures Leads(c, s0, s') && Held(c, s', {}, r + |held|, n) && s.finished <= s'.finished
    ensures held <= RowsWith(s'.jobs, Running) && RowsWith(s.jobs, Running) <= RowsWith(s'.jobs, Running)
    decreases held
  {
    hide Leads, Held, RowsWith;
    s' := s;
    if held != {} {
      var id :| id in held;
      s' := ReviveOne(c, s0, s, held, r, n, id);
      s' := ReviveAll(c, s0, s', held - {id}, r + 1, n);
    }
  }

  /** However the caps are set, if there is room for n jobs then for every k some run ends with n + k of them
      running for one user: k jobs are cancelled, one after the other, while their containers are being
      started, n others are enqueued and started, and then the k requests write their last rows. */
  lemma OvershootRun(c: Config, n: nat, k: nat) returns (s: State, revived: set<JobID>)
    requires n >= 1 && RoomFor(c, n)
    ensures Leads(c, Init(0), s) && |AllRunningFor(s, "u")| == |RowsWith(s.jobs, Running)| == n + k
    ensures |revived| == k && revived <= s.finished && revived <= AllRunningFor(s, "u")
  {
    hide Leads, Held;
    var s1, held := HoldMany(c, Init(0), k);
    var s2, n2 := ServeMany(c, Init(0), s1, held, 0, k + 1, n);
    s := ReviveAll(c, Init(0), s2, held, n, n2);
    revived := held;
    HeldWasFinished(c, s2, held, n, n2);
    NoneHeld(c, s, n + k, n2);
  }

  lemma HeldWasFinished(c: Config, s: State, held: set<JobID>, r: nat, n: nat)
    requires Held(c, s, held, r, n)
    ensures held <= s.finished
  {
  }

  lemma NoneHeld(c: Config, s: State, r: nat, n: nat)
    requires Held(c, s, {}, r, n)
    ensures AllRunningFor(s, "u") == RowsWith(s.jobs, Running) && |RowsWith(s.jobs, Running)| == r
  {
  }
}
