/** Containers, reports and webhook calls over whole runs, and the runs in which the
    unconditional form of a guarantee fails. */
module JobOutcomes {
  import opened Wrappers
  import opened JobDomain
  import opened JobProtocol
  import opened JobInvariant
  import opened JobFrames
  import opened JobTheorems
  import opened JobLifecycle

  // ---- requests that end before a container was started ----

  /** A request that ended without starting a container (held back by a cap, stopped by missing
      credentials or a storage error, or lost in a restart) never gets one afterwards. Its row can
      only be cancelled, or be failed by the request itself when the start was refused. */
  lemma HeldBackForEver(c: Config, s: State, steps: seq<Step>, id: JobID)
    requires Reachable(c, s) && ValidRun(c, s, steps)
    requires id in s.enqueues && s.enqueues[id].pc.Ended? && s.enqueues[id].container.None?
    ensures id in After(c, s, steps).jobs && id in After(c, s, steps).enqueues
    ensures After(c, s, steps).enqueues[id] == s.enqueues[id]
    ensures forall cid :: cid in After(c, s, steps).containers ==> After(c, s, steps).containers[cid].spec.jobID != id
    ensures var r := After(c, s, steps).jobs[id];
            r.status == Queued || r.status == Cancelled
                || (r.status == Failed && s.enqueues[id].pc == Ended(StartFailed))
  {
    ReachableIsStructured(c, s);
    RunGrows(c, s, steps);
    RunKeepsStructure(c, s, steps);
    NoContainerFor(c, After(c, s, steps), id);
  }

  lemma NoContainerFor(c: Config, s: State, id: JobID)
    requires Structure(c, s) && id in s.enqueues && s.enqueues[id].container.None?
    ensures forall cid :: cid in s.containers ==> s.containers[cid].spec.jobID != id
    ensures id in s.jobs
    ensures var r := s.jobs[id];
            r.status == Queued || r.status == Cancelled
                || (r.status == Failed && s.enqueues[id].pc == Ended(StartFailed))
  {
    ThreadIsOk(c, s, id);
    forall cid | cid in s.containers ensures s.containers[cid].spec.jobID != id {
      assert ContainerOk(s.enqueues, cid, s.containers[cid], s.clock, s.finished);
    }
  }

  // ---- containers ----

  /** A job gets at most one container, and a row that names a container names that one. */
  lemma OneContainerPerJob(c: Config, s: State, cid: ContainerID, other: ContainerID)
    requires Reachable(c, s) && cid in s.containers && other in s.containers
    requires s.containers[cid].spec.jobID == s.containers[other].spec.jobID
    ensures cid == other
    ensures s.containers[cid].spec.jobID in s.jobs
    ensures var r := s.jobs[s.containers[cid].spec.jobID]; r.startedAt.Some? ==> r.containerID == cid
  {
    ReachableIsStructured(c, s);
    assert ContainerOk(s.enqueues, cid, s.containers[cid], s.clock, s.finished);
    assert ContainerOk(s.enqueues, other, s.containers[other], s.clock, s.finished);
    ThreadIsOk(c, s, s.containers[cid].spec.jobID);
  }

  /** Every container works on what the row of its job says: the same repository, branches, spec and model. */
  lemma ContainersRunTheirRow(c: Config, s: State, cid: ContainerID)
    requires Reachable(c, s) && cid in s.containers
    ensures var spec := s.containers[cid].spec;
            && spec.jobID in s.jobs && spec.jobID in s.enqueues
            && var row := s.jobs[spec.jobID];
               && row.id == spec.jobID && row.repo == spec.repo && row.spec == spec.spec
               && row.baseBranch == spec.baseBranch && row.workBranch == spec.workBranch
               && row.modelOverride == spec.model
               && spec.logPath == s.enqueues[spec.jobID].input.logPath
  {
    ReachableIsStructured(c, s);
    assert ContainerOk(s.enqueues, cid, s.containers[cid], s.clock, s.finished);
    ThreadIsOk(c, s, s.containers[cid].spec.jobID);
  }

  /** A derived path is the job's own: it ends in the job's id and ".log", directly below the log directory,
      so two jobs never share one. */
  lemma DerivedLogPathsDiffer(c: Config, id: JobID, other: JobID, input: EnqueueInput, input': EnqueueInput)
    requires input.logPath == "" && input'.logPath == ""
    ensures LogPathFor(c, id, input) == (if c.logDir == "" then "" else c.logDir + "/") + (id + ".log")
    ensures LogPathFor(c, id, input) == LogPathFor(c, other, input') ==> id == other
  {
    var below := if c.logDir == "" then "" else c.logDir + "/";
    var p, q := LogPathFor(c, id, input), LogPathFor(c, other, input');
    assert p == below + (id + ".log") && q == below + (other + ".log");
    if p == q {
      assert id == p[|below|..|p| - 4] && other == q[|below|..|q| - 4];
    }
  }

  lemma DerivedLogPathIsNotEmpty(c: Config, id: JobID, input: EnqueueInput)
    ensures LogPathFor(c, id, input) != ""
    ensures LogPathFor(c, id, input) == input.logPath <==> input.logPath != ""
  {
    var path := LogPathFor(c, id, input);
    if input.logPath == "" {
      assert path[|path| - 1] == 'g';
    }
  }

  /** The runner writes its log where the row says the log is, if and only if the request pinned a path. */
  lemma LogIsWhereTheRowSays(c: Config, s: State, cid: ContainerID)
    requires Reachable(c, s) && cid in s.containers
    ensures var id := s.containers[cid].spec.jobID;
            && id in s.jobs && id in s.enqueues
            && (s.containers[cid].spec.logPath == s.jobs[id].logPath <==> s.enqueues[id].input.logPath != "")
  {
    ReachableIsStructured(c, s);
    assert ContainerOk(s.enqueues, cid, s.containers[cid], s.clock, s.finished);
    var id := s.containers[cid].spec.jobID;
    ThreadIsOk(c, s, id);
    DerivedLogPathIsNotEmpty(c, id, s.enqueues[id].input);
  }

  // ---- reports ----

  /** A row becomes succeeded only when the supervisor of its own container saves it. */
  lemma OnlySupervisorsSucceed(c: Config, s: State, a: Step, id: JobID)
    requires Structure(c, s) && Enabled(c, s, a) && id in s.jobs
    requires id in Do(c, s, a).jobs && Do(c, s, a).jobs[id].status == Succeeded && s.jobs[id].status != Succeeded
    ensures a.SaveCompletion? && a.containerID in s.containers
    ensures s.containers[a.containerID].spec.jobID == id && s.containers[a.containerID].supervisor.Saving?
  {
    hide Structure, Do, Enabled, Written;
    StepRow(c, s, a, id);
    WrittenIs(c, s, a);
  }

  /** The supervisor has nothing more to store. */
  predicate Done(v: Supervisor) {
    v.Gone? || v.Notifying?
  }

  ghost predicate SameOrDone(k: Container, k': Container) {
    && k'.spec == k.spec
    && (Done(k.supervisor) ==> Done(k'.supervisor))
    && (k.supervisor == Gone ==> k'.supervisor == Gone)
  }

  lemma EnqueueKeepsContainers(c: Config, s: State, a: Step, cid: ContainerID)
    requires Enabled(c, s, a) && IsEnqueueStep(a)
    ensures cid in s.containers ==> cid in Do(c, s, a).containers && Do(c, s, a).containers[cid] == s.containers[cid]
    ensures cid in Do(c, s, a).containers && cid !in s.containers ==>
              a.StartContainer? && a.id in s.enqueues && s.enqueues[a.id].pc == Starting
              && Do(c, s, a).containers[cid].spec.jobID == a.id
  {
  }

  lemma SupervisorAdvances(c: Config, s: State, a: Step, cid: ContainerID)
    requires Enabled(c, s, a) && IsSupervisorStep(a)
    ensures Do(c, s, a).containers.Keys == s.containers.Keys
    ensures cid in s.containers ==> SameOrDone(s.containers[cid], Do(c, s, a).containers[cid])
    ensures a.SaveCompletion? ==> Done(Do(c, s, a).containers[a.containerID].supervisor)
  {
    hide Granted, Received, DoCreate, DoCountUser, DoCountGlobal, DoFetchCreds, DoStartContainer, DoStartFails,
         DoSaveFailed, DoSaveRunning, DoCancelRead, DoCancelStop, DoCancelSave, DoReattachList, DoReattachInspect,
         DoReattachSave, DoRestart, SameOrDone, Done;
    match a
    case ContainerExits(x) => KillIsSame(s, x, cid);
    case Report(x, res) => SetWaiting(s, x, Received(s.jobs, res, s.clock), cid);
    case SaveCompletion(x, now, ok) => SaveIsDone(c, s, x, now, ok, cid);
    case Notify(x) => NotifyIsGone(s, x, cid);
  }

  lemma KillIsSame(s: State, x: ContainerID, cid: ContainerID)
    requires x in s.containers
    ensures Kill(s, x).containers.Keys == s.containers.Keys
    ensures cid in s.containers ==> SameOrDone(s.containers[cid], Kill(s, x).containers[cid])
  {
  }

  lemma SetWaiting(s: State, x: ContainerID, v: Supervisor, cid: ContainerID)
    requires x in s.containers && s.containers[x].supervisor == Waiting
    ensures SetSupervisor(s, x, v).containers.Keys == s.containers.Keys
    ensures cid in s.containers ==> SameOrDone(s.containers[cid], SetSupervisor(s, x, v).containers[cid])
  {
  }

  lemma SaveIsDone(c: Config, s: State, x: ContainerID, now: Time, ok: bool, cid: ContainerID)
    requires x in s.containers && s.containers[x].supervisor.Saving?
    ensures var ks' := DoSaveCompletion(c, s, x, now, ok).containers;
            && ks'.Keys == s.containers.Keys && Done(ks'[x].supervisor)
            && (cid in s.containers ==> SameOrDone(s.containers[cid], ks'[cid]))
  {
    hide Granted;
  }

  lemma NotifyIsGone(s: State, x: ContainerID, cid: ContainerID)
    requires x in s.containers && s.containers[x].supervisor.Notifying?
    ensures DoNotify(s, x).containers.Keys == s.containers.Keys
    ensures cid in s.containers ==> SameOrDone(s.containers[cid], DoNotify(s, x).containers[cid])
  {
  }

  lemma FinisherKeepsSupervisors(c: Config, s: State, a: Step, cid: ContainerID)
    requires Enabled(c, s, a) && !IsEnqueueStep(a) && !IsSupervisorStep(a)
    ensures Do(c, s, a).containers.Keys == s.containers.Keys
    ensures cid in s.containers ==> SameOrDone(s.containers[cid], Do(c, s, a).containers[cid])
  {
    hide DoCreate, DoCountUser, DoCountGlobal, DoFetchCreds, DoStartContainer, DoStartFails, DoSaveFailed,
         DoSaveRunning, DoReport, DoSaveCompletion, DoNotify, Granted;
  }

  /** Containers keep their spec, and a supervisor that is done or gone stays so. */
  lemma ContainerAdvances(c: Config, s: State, a: Step, cid: ContainerID)
    requires Enabled(c, s, a) && cid in s.containers
    ensures cid in Do(c, s, a).containers && SameOrDone(s.containers[cid], Do(c, s, a).containers[cid])
  {
    hide Do, Enabled;
    if IsEnqueueStep(a) {
      EnqueueKeepsContainers(c, s, a, cid);
    } else if IsSupervisorStep(a) {
      SupervisorAdvances(c, s, a, cid);
    } else {
      FinisherKeepsSupervisors(c, s, a, cid);
    }
  }

  lemma {:induction false} GoneMeansNoSuccess(c: Config, s: State, steps: seq<Step>, cid: ContainerID)
    requires Structure(c, s) && ValidRun(c, s, steps)
    requires cid in s.containers && s.containers[cid].supervisor == Gone
    requires var id := s.containers[cid].spec.jobID; id in s.jobs && s.jobs[id].status != Succeeded
    ensures var id := s.containers[cid].spec.jobID;
            id in After(c, s, steps).jobs && After(c, s, steps).jobs[id].status != Succeeded
    decreases |steps|
  {
    hide Structure, Do, Enabled;
    if steps != [] {
      var a, s', id := steps[0], Do(c, s, steps[0]), s.containers[cid].spec.jobID;
      StepFacts(c, s, a);
      ContainerAdvances(c, s, a, cid);
      if s'.jobs[id].status == Succeeded {
        OnlySupervisorsSucceed(c, s, a, id);
        SameContainer(c, s, cid, a.containerID);
      }
      GoneMeansNoSuccess(c, s', steps[1..], cid);
    }
  }

  lemma SameContainer(c: Config, s: State, cid: ContainerID, other: ContainerID)
    requires Structure(c, s) && cid in s.containers && other in s.containers
    requires s.containers[cid].spec.jobID == s.containers[other].spec.jobID
    ensures cid == other && s.containers[cid].spec.jobID in s.jobs
  {
    assert ContainerOk(s.enqueues, cid, s.containers[cid], s.clock, s.finished);
    assert ContainerOk(s.enqueues, other, s.containers[other], s.clock, s.finished);
  }

  /** The row of a container is not succeeded before its supervisor is done. */
  ghost predicate SuccessWasReported(jobs: map<JobID, JobRow>, ks: map<ContainerID, Container>) {
    forall cid :: cid in ks && ks[cid].spec.jobID in jobs && jobs[ks[cid].spec.jobID].status == Succeeded ==>
      Done(ks[cid].supervisor)
  }

  lemma NewContainerIsNotSucceeded(c: Config, s: State, a: Step, cid: ContainerID)
    requires Structure(c, s) && Enabled(c, s, a)
    requires cid in Do(c, s, a).containers && cid !in s.containers
    ensures var id := Do(c, s, a).containers[cid].spec.jobID;
            a.StartContainer? && id in s.jobs && s.jobs[id].status != Succeeded
  {
    hide Structure, Do, Enabled;
    if IsEnqueueStep(a) {
      EnqueueKeepsContainers(c, s, a, cid);
      StartingIsNotSucceeded(c, s, a.id);
    } else if IsSupervisorStep(a) {
      SupervisorAdvances(c, s, a, cid);
    } else {
      FinisherKeepsSupervisors(c, s, a, cid);
    }
  }

  lemma StartingIsNotSucceeded(c: Config, s: State, id: JobID)
    requires Structure(c, s) && AtPc(s, id, Starting)
    ensures id in s.jobs && s.jobs[id].status != Succeeded
  {
    ThreadIsOk(c, s, id);
  }

  lemma StepKeepsReported(c: Config, s: State, a: Step)
    requires Structure(c, s) && Enabled(c, s, a) && SuccessWasReported(s.jobs, s.containers)
    ensures SuccessWasReported(Do(c, s, a).jobs, Do(c, s, a).containers)
  {
    hide Structure, Do, Enabled;
    var s' := Do(c, s, a);
    forall cid | cid in s'.containers && s'.containers[cid].spec.jobID in s'.jobs
                 && s'.jobs[s'.containers[cid].spec.jobID].status == Succeeded
      ensures Done(s'.containers[cid].supervisor)
    {
      var id := s'.containers[cid].spec.jobID;
      if cid !in s.containers {
        NewContainerIsNotSucceeded(c, s, a, cid);
        OnlySupervisorsSucceed(c, s, a, id);
        assert false;
      } else {
        ContainerAdvances(c, s, a, cid);
        SameContainer(c, s, cid, cid);
        if s.jobs[id].status != Succeeded {
          OnlySupervisorsSucceed(c, s, a, id);
          SameContainer(c, s, cid, a.containerID);
          SupervisorAdvances(c, s, a, cid);
        }
      }
    }
  }

  lemma {:induction false} RunKeepsReported(c: Config, s: State, steps: seq<Step>)
    requires Structure(c, s) && ValidRun(c, s, steps) && SuccessWasReported(s.jobs, s.containers)
    ensures SuccessWasReported(After(c, s, steps).jobs, After(c, s, steps).containers)
    decreases |steps|
  {
    hide Structure, Do, Enabled, SuccessWasReported;
    if steps != [] {
      StepKeepsStructure(c, s, steps[0]);
      StepKeepsReported(c, s, steps[0]);
      RunKeepsReported(c, Do(c, s, steps[0]), steps[1..]);
    }
  }

  lemma WaitingIsNotSucceeded(c: Config, s: State, cid: ContainerID)
    requires Reachable(c, s) && cid in s.containers && !Done(s.containers[cid].supervisor)
    ensures var id := s.containers[cid].spec.jobID; id in s.jobs && s.jobs[id].status != Succeeded
  {
    hide Structure;
    var start, steps :| ValidRun(c, Init(start), steps) && After(c, Init(start), steps) == s;
    InitIsFine(c, start);
    RunKeepsReported(c, Init(start), steps);
    ReachableIsStructured(c, s);
    SameContainer(c, s, cid, cid);
  }

  /** Some run from here ends with the job succeeded. */
  ghost predicate CanSucceed(c: Config, s: State, id: JobID) {
    exists steps :: ValidRun(c, s, steps) && id in After(c, s, steps).jobs
        && After(c, s, steps).jobs[id].status == Succeeded
  }

  /** The report of a container is used up by one delivery. A success counts if and only if it finds
      the row running; one that comes before the request has written "running" is lost for good. */
  lemma ReportDecides(c: Config, s: State, cid: ContainerID, res: RunnerResult)
    requires Reachable(c, s) && Enabled(c, s, Report(cid, res)) && res.exitCode == 0
    ensures res.jobID in s.jobs
    ensures CanSucceed(c, DoReport(s, cid, res), res.jobID) <==> s.jobs[res.jobID].status == Running
  {
    hide Structure, CanSucceed;
    ReachableIsStructured(c, s);
    SameContainer(c, s, cid, cid);
    WaitingIsNotSucceeded(c, s, cid);
    StepKeepsStructure(c, s, Report(cid, res));
    if s.jobs[res.jobID].status == Running {
      FiledUnderItsId(c, s, res.jobID);
      RunningReportIsTaken(c, s, cid, res);
    } else {
      LostForGood(c, DoReport(s, cid, res), cid);
    }
  }

  lemma OneStep(c: Config, s: State, a: Step)
    requires Enabled(c, s, a)
    ensures ValidRun(c, s, [a]) && After(c, s, [a]) == Do(c, s, a)
  {
    hide Enabled, Do;
    assert [a][1..] == [] && ValidRun(c, Do(c, s, a), []);
  }

  lemma RunningReportIsTaken(c: Config, s: State, cid: ContainerID, res: RunnerResult)
    requires cid in s.containers && s.containers[cid].spec.jobID == res.jobID && res.exitCode == 0 && res.jobID != ""
    requires res.jobID in s.jobs && s.jobs[res.jobID].status == Running && s.jobs[res.jobID].id == res.jobID
    ensures CanSucceed(c, DoReport(s, cid, res), res.jobID)
  {
    hide Do, Enabled, ValidRun, After, DoReport;
    var s1 := DoReport(s, cid, res);
    TakenReport(s, cid, res);
    SavedSuccess(c, s1, cid, s.jobs[res.jobID], res);
    OneStep(c, s1, SaveCompletion(cid, s1.clock, true));
  }

  lemma TakenReport(s: State, cid: ContainerID, res: RunnerResult)
    requires cid in s.containers && res.exitCode == 0 && res.jobID != ""
    requires res.jobID in s.jobs && s.jobs[res.jobID].status == Running
    ensures var s1 := DoReport(s, cid, res);
            && s1.jobs == s.jobs && s1.clock == s.clock && cid in s1.containers
            && s1.containers[cid].supervisor == Saving(s.jobs[res.jobID], res, s.clock)
  {
  }

  lemma SavedSuccess(c: Config, s: State, cid: ContainerID, copy: JobRow, res: RunnerResult)
    requires cid in s.containers && s.containers[cid].supervisor == Saving(copy, res, s.clock)
    requires copy.id in s.jobs && copy.status == Running && res.exitCode == 0
    ensures Enabled(c, s, SaveCompletion(cid, s.clock, true))
    ensures var s' := Do(c, s, SaveCompletion(cid, s.clock, true));
            copy.id in s'.jobs && s'.jobs[copy.id].status == Succeeded
  {
  }

  lemma LostForGood(c: Config, s: State, cid: ContainerID)
    requires Structure(c, s) && cid in s.containers && s.containers[cid].supervisor == Gone
    requires var id := s.containers[cid].spec.jobID; id in s.jobs && s.jobs[id].status != Succeeded
    ensures !CanSucceed(c, s, s.containers[cid].spec.jobID)
  {
    hide Structure;
    forall steps | ValidRun(c, s, steps)
      ensures var id := s.containers[cid].spec.jobID;
              id in After(c, s, steps).jobs && After(c, s, steps).jobs[id].status != Succeeded
    {
      GoneMeansNoSuccess(c, s, steps, cid);
    }
  }

  /** A restart loses every report still to come: afterwards exactly those jobs can be recorded as
      succeeded that are so already, whatever their containers do. */
  lemma RestartDecides(c: Config, s: State, id: JobID)
    requires Reachable(c, s) && id in s.jobs
    ensures CanSucceed(c, DoRestart(s), id) <==> s.jobs[id].status == Succeeded
  {
    hide Structure, CanSucceed;
    ReachableIsStructured(c, s);
    StructureIsBare(c, s);
    RestartKeeps(c, s);
    var s1 := DoRestart(s);
    if s.jobs[id].status == Succeeded {
      NowIsARun(c, s1, id);
    } else {
      RestartedIsDecided(c, s1, id);
    }
  }

  lemma NowIsARun(c: Config, s: State, id: JobID)
    requires id in s.jobs && s.jobs[id].status == Succeeded
    ensures CanSucceed(c, s, id)
  {
    assert ValidRun(c, s, []) && After(c, s, []) == s;
  }

  lemma RestartedIsDecided(c: Config, s: State, id: JobID)
    requires Structure(c, s) && id in s.jobs && s.jobs[id].status != Succeeded && RequestEnded(s, id)
    requires forall cid :: cid in s.containers ==> s.containers[cid].supervisor == Gone
    ensures !CanSucceed(c, s, id)
  {
    hide Structure;
    if s.enqueues[id].container.Some? {
      var cid := s.enqueues[id].container.value;
      ItsContainerExists(c, s, id);
      LostForGood(c, s, cid);
    } else {
      forall steps | ValidRun(c, s, steps)
        ensures id in After(c, s, steps).jobs && After(c, s, steps).jobs[id].status != Succeeded
      {
        RunGrows(c, s, steps);
        RunKeepsStructure(c, s, steps);
        NoContainerFor(c, After(c, s, steps), id);
      }
    }
  }

  lemma ItsContainerExists(c: Config, s: State, id: JobID)
    requires Structure(c, s) && id in s.enqueues && s.enqueues[id].container.Some?
    ensures var cid := s.enqueues[id].container.value; cid in s.containers && s.containers[cid].spec.jobID == id
  {
  }

  // ---- webhook calls ----

  /** No job gets two webhook calls, and each call carries a terminal row of that job. */
  lemma OneHookPerJob(c: Config, s: State, i: nat, j: nat)
    requires Reachable(c, s) && i < |s.hooks| && j < |s.hooks|
    ensures s.hooks[i].row.id == s.hooks[j].row.id ==> i == j
    ensures s.hooks[i].row.IsTerminal() && s.hooks[i].url != ""
  {
    ReachableIsStructured(c, s);
    assert HookOk(s.containers, s.finished, s.hooks[i]) && HookOk(s.containers, s.finished, s.hooks[j]);
    if s.hooks[i].row.id == s.hooks[j].row.id {
      SameContainer(c, s, s.hooks[i].containerID, s.hooks[j].containerID);
    }
  }

  ghost predicate Pending(s: State, h: HookCall) {
    h.containerID in s.containers && s.containers[h.containerID].supervisor == Notifying(h.row, h.url, h.logTail)
  }

  /** A call is made only by a supervisor that was about to make it, and such a supervisor
      has just stored the row it will send. */
  lemma HookOrigin(c: Config, s: State, a: Step, h: HookCall)
    requires Enabled(c, s, a)
    ensures h in Do(c, s, a).hooks ==> h in s.hooks || Pending(s, h)
  {
  }

  lemma OnlySavingMakesPending(c: Config, s: State, a: Step, h: HookCall)
    requires Enabled(c, s, a) && Pending(Do(c, s, a), h) && !Pending(s, h)
    ensures a.SaveCompletion? && Written(s, a) == Some(h.row)
  {
  }

  lemma PendingOrigin(c: Config, s: State, a: Step, h: HookCall)
    requires Structure(c, s) && Enabled(c, s, a) && Pending(Do(c, s, a), h) && !Pending(s, h)
    ensures h.row.id in Do(c, s, a).jobs && Do(c, s, a).jobs[h.row.id] == h.row
  {
    OnlySavingMakesPending(c, s, a, h);
    SupervisorWriteIs(c, s, a.containerID, a.now);
    assert ContainerOk(s.enqueues, a.containerID, s.containers[a.containerID], s.clock, s.finished);
    StepRow(c, s, a, h.row.id);
  }

  /** Every row a webhook call carries was stored before the call was made. */
  lemma {:induction false} HookRowsWereStored(c: Config, s: State, steps: seq<Step>, h: HookCall)
    requires Structure(c, s) && ValidRun(c, s, steps) && h in After(c, s, steps).hooks
    ensures h in s.hooks || Pending(s, h) || EverStored(c, s, steps, h.row)
    decreases |steps|
  {
    hide Structure, Do, Enabled;
    if steps != [] {
      var a, s' := steps[0], Do(c, s, steps[0]);
      StepKeepsStructure(c, s, a);
      HookRowsWereStored(c, s', steps[1..], h);
      HookOrigin(c, s, a, h);
      if Pending(s', h) && !Pending(s, h) {
        PendingOrigin(c, s, a, h);
        assert EverStored(c, s', steps[1..], h.row);
      }
    }
  }
}
