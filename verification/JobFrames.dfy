/** What single steps may change: threads only move forward, history only grows,
    cap checks are passed only by counting, rows are written only by the saving steps. */
module JobFrames {
  import opened Wrappers
  import opened JobDomain
  import opened JobProtocol
  import opened JobInvariant

  ghost predicate StartingIsBare(ths: Threads) {
    forall id :: id in ths && ths[id].pc == Starting ==> ths[id].container.None?
  }

  lemma StructureIsBare(c: Config, s: State)
    requires Structure(c, s)
    ensures StartingIsBare(s.enqueues) && s.jobs.Keys == s.enqueues.Keys
  {
    hide ContainersOk, StartsOk, CancelsOk, ReattachOk, HooksOk;
    forall id | id in s.enqueues && s.enqueues[id].pc == Starting ensures s.enqueues[id].container.None? {
      ThreadIsOk(c, s, id);
    }
  }

  /** No thread passes a cap check it had not passed before. */
  ghost predicate NoNewPass(ths: Threads, ths': Threads) {
    forall id :: id in ths' ==>
      && (ths'[id].passedUser ==> id in ths && ths[id].passedUser)
      && (ths'[id].passedGlobal ==> id in ths && ths[id].passedGlobal)
  }

  lemma SupervisorsLeaveThreads(c: Config, s: State, a: Step)
    requires Enabled(c, s, a) && IsSupervisorStep(a)
    ensures Do(c, s, a).enqueues == s.enqueues
  {
  }

  lemma FinishersLeaveThreads(c: Config, s: State, a: Step)
    requires Enabled(c, s, a) && !IsSupervisorStep(a) && !IsEnqueueStep(a) && !a.Restart?
    ensures Do(c, s, a).enqueues == s.enqueues
  {
    hide DoCreate, DoCountUser, DoCountGlobal, DoFetchCreds, DoStartContainer, DoStartFails, DoSaveFailed,
         DoSaveRunning, DoReport, DoSaveCompletion, DoNotify, Granted, DoRestart;
  }

  lemma OthersLeaveThreads(c: Config, s: State, a: Step)
    requires Enabled(c, s, a) && !IsEnqueueStep(a) && !a.Restart?
    ensures Do(c, s, a).enqueues == s.enqueues
  {
    hide Do, Enabled;
    if IsSupervisorStep(a) {
      SupervisorsLeaveThreads(c, s, a);
    } else {
      FinishersLeaveThreads(c, s, a);
    }
  }

  lemma CountingGrowsThreads(c: Config, s: State, a: Step)
    requires Enabled(c, s, a) && (a.CountUser? || a.CountGlobal? || a.FetchCreds?)
    ensures ThreadsGrow(s.enqueues, Do(c, s, a).enqueues)
  {
  }

  lemma OneThreadGrows(ths: Threads, ths': Threads, id: JobID)
    requires id in ths && id in ths' && ths' == ths[id := ths'[id]] && ThreadGrows(ths[id], ths'[id])
    ensures ThreadsGrow(ths, ths')
  {
  }

  lemma SavingGrowsThreads(c: Config, s: State, a: Step)
    requires Enabled(c, s, a) && (a.StartFails? || a.SaveFailed? || a.SaveRunning?)
    ensures ThreadsGrow(s.enqueues, Do(c, s, a).enqueues)
  {
    hide DoCancelRead, DoCancelStop, DoCancelSave, DoReattachList, DoReattachInspect, DoReattachSave, DoRestart,
         Kill, DoReport, DoSaveCompletion, DoNotify;
    hide ThreadsGrow;
    OneThreadGrows(s.enqueues, Do(c, s, a).enqueues, a.id);
  }

  lemma StartingGrowsThreads(c: Config, s: State, a: Step)
    requires StartingIsBare(s.enqueues) && Enabled(c, s, a) && s.jobs.Keys == s.enqueues.Keys
    requires a.Create? || a.StartContainer? || a.Restart?
    ensures ThreadsGrow(s.enqueues, Do(c, s, a).enqueues)
  {
  }

  lemma StepGrowsThreads(c: Config, s: State, a: Step)
    requires StartingIsBare(s.enqueues) && Enabled(c, s, a)
    requires s.jobs.Keys == s.enqueues.Keys
    ensures ThreadsGrow(s.enqueues, Do(c, s, a).enqueues)
  {
    hide Do, Enabled;
    if !IsEnqueueStep(a) && !a.Restart? {
      OthersLeaveThreads(c, s, a);
    } else if a.CountUser? || a.CountGlobal? || a.FetchCreds? {
      CountingGrowsThreads(c, s, a);
    } else if !a.Create? && !a.StartContainer? && !a.Restart? {
      SavingGrowsThreads(c, s, a);
    } else {
      StartingGrowsThreads(c, s, a);
    }
  }

  lemma StartStepsDoNotPass(c: Config, s: State, a: Step)
    requires Enabled(c, s, a) && (a.Create? || a.FetchCreds? || a.StartContainer? || a.StartFails? || a.Restart?)
    ensures NoNewPass(s.enqueues, Do(c, s, a).enqueues)
  {
  }

  lemma OneThreadPassesNothing(ths: Threads, id: JobID, th: EnqueueThread)
    requires id in ths && th.passedUser == ths[id].passedUser && th.passedGlobal == ths[id].passedGlobal
    ensures NoNewPass(ths, ths[id := th])
  {
  }

  lemma SaveStepsDoNotPass(c: Config, s: State, a: Step)
    requires Enabled(c, s, a) && (a.SaveFailed? || a.SaveRunning?)
    ensures NoNewPass(s.enqueues, Do(c, s, a).enqueues)
  {
    hide Granted, NoNewPass;
    OneThreadPassesNothing(s.enqueues, a.id, Do(c, s, a).enqueues[a.id]);
  }

  lemma OnlyCountingPasses(c: Config, s: State, a: Step)
    requires Enabled(c, s, a) && !a.CountUser? && !a.CountGlobal?
    ensures NoNewPass(s.enqueues, Do(c, s, a).enqueues)
  {
    hide Do, Enabled;
    if !IsEnqueueStep(a) && !a.Restart? {
      OthersLeaveThreads(c, s, a);
    } else if a.SaveFailed? || a.SaveRunning? {
      SaveStepsDoNotPass(c, s, a);
    } else {
      StartStepsDoNotPass(c, s, a);
    }
  }

  /** Keys and history only grow, and a job newly in the history has a terminal row now. */
  ghost predicate HistoryGrows(s: State, s': State) {
    && s.finished <= s'.finished && s.jobs.Keys <= s'.jobs.Keys && s.clock <= s'.clock
    && forall id :: id in s'.finished && id !in s.finished ==> id in s'.jobs && s'.jobs[id].IsTerminal()
  }

  lemma EnqueueGrowsHistory(c: Config, s: State, a: Step)
    requires Enabled(c, s, a) && IsEnqueueStep(a)
    ensures HistoryGrows(s, Do(c, s, a))
  {
  }

  lemma SupervisorGrowsHistory(c: Config, s: State, a: Step)
    requires Enabled(c, s, a) && IsSupervisorStep(a)
    ensures HistoryGrows(s, Do(c, s, a))
  {
  }

  lemma FinisherGrowsHistory(c: Config, s: State, a: Step)
    requires Enabled(c, s, a) && !IsEnqueueStep(a) && !IsSupervisorStep(a)
    ensures HistoryGrows(s, Do(c, s, a))
  {
  }

  lemma StepGrowsHistory(c: Config, s: State, a: Step)
    requires Enabled(c, s, a)
    ensures HistoryGrows(s, Do(c, s, a))
  {
    hide Do, Enabled, HistoryGrows;
    if IsEnqueueStep(a) {
      EnqueueGrowsHistory(c, s, a);
    } else if IsSupervisorStep(a) {
      SupervisorGrowsHistory(c, s, a);
    } else {
      FinisherGrowsHistory(c, s, a);
    }
  }

  /** The row a saving step hands to Update. */
  function Written(s: State, a: Step): Option<JobRow> {
    match a
    case SaveFailed(id, now, true) =>
      if id in s.enqueues && s.enqueues[id].pc.SavingFailed?
      then Some(Granted(s.enqueues[id].row, ToFailed(s.enqueues[id].pc.reason), now)) else None
    case SaveRunning(id, now, true) =>
      if id in s.enqueues && s.enqueues[id].container.Some?
      then Some(Granted(s.enqueues[id].row, ToRunning(s.enqueues[id].container.value), now)) else None
    case CancelSave(tid, now, true) =>
      if tid in s.cancels then Some(Granted(s.cancels[tid].copy, ToCancelled, now)) else None
    case SaveCompletion(cid, now, true) =>
      if cid in s.containers && s.containers[cid].supervisor.Saving?
      then Some(Granted(s.containers[cid].supervisor.copy, Verdict(s.containers[cid].supervisor.res), now)) else None
    case ReattachSave(true) =>
      if s.reattach.Some? && s.reattach.value.Looping? && s.reattach.value.rows != []
      then Some(Granted(s.reattach.value.rows[0], ToFailed(GONE_REASON), s.reattach.value.now)) else None
    case _ => None
  }

  ghost predicate Writes(s: State, row: Option<JobRow>, s': State) {
    s'.jobs == match row
               case None => s.jobs
               case Some(r) => if r.id in s.jobs then s.jobs[r.id := r] else s.jobs
  }

  lemma EnqueueWrites(c: Config, s: State, a: Step)
    requires Enabled(c, s, a) && IsEnqueueStep(a) && !a.Create?
    ensures Writes(s, Written(s, a), Do(c, s, a))
  {
  }

  lemma OthersWrite(c: Config, s: State, a: Step)
    requires Enabled(c, s, a) && !IsEnqueueStep(a)
    ensures Writes(s, Written(s, a), Do(c, s, a))
  {
  }

  /** A step other than Create changes the table by the row it writes or not at all. */
  lemma OnlySavingWrites(c: Config, s: State, a: Step)
    requires Enabled(c, s, a) && !a.Create?
    ensures Writes(s, Written(s, a), Do(c, s, a))
  {
    hide Do, Enabled, Written;
    if IsEnqueueStep(a) {
      EnqueueWrites(c, s, a);
    } else {
      OthersWrite(c, s, a);
    }
  }

  lemma StepRow(c: Config, s: State, a: Step, id: JobID)
    requires Enabled(c, s, a) && id in s.jobs
    ensures id in Do(c, s, a).jobs
    ensures Do(c, s, a).jobs[id] == if Written(s, a).Some? && Written(s, a).value.id == id then Written(s, a).value
            else s.jobs[id]
  {
    if !a.Create? {
      OnlySavingWrites(c, s, a);
    }
  }

  lemma OwnWriteIs(c: Config, s: State, id: JobID, now: Time)
    requires Structure(c, s) && id in s.enqueues && s.enqueues[id].seen <= now <= s.clock
    ensures s.enqueues[id].pc.SavingFailed? ==>
            var w := Written(s, SaveFailed(id, now, true)); w.Some? && w.value.id == id && w.value.status == Failed
    ensures AtPc(s, id, SavingRunning) ==>
            var w := Written(s, SaveRunning(id, now, true)); w.Some? && w.value.id == id && w.value.status == Running
  {
    hide JobsOk, ContainersOk, StartsOk, CancelsOk, ReattachOk, HooksOk, RowThreadOk;
    ThreadIsOk(c, s, id);
    OwnWriteOk(c, id, s.jobs[id], s.enqueues[id], now, s.clock, id in s.finished);
  }

  lemma FinisherWriteIs(c: Config, s: State, a: Step)
    requires CancelsOk(s.enqueues, s.cancels, s.clock) && ReattachOk(s.enqueues, s.reattach, s.clock)
    requires Written(s, a).Some?
    ensures a.CancelSave? ==> Written(s, a).value.status == Cancelled
    ensures a.ReattachSave? ==> Written(s, a).value.status == Failed
  {
    hide ThreadOk;
  }

  lemma SupervisorWriteIs(c: Config, s: State, cid: ContainerID, now: Time)
    requires Structure(c, s) && cid in s.containers && s.containers[cid].supervisor.Saving?
    ensures var w := Written(s, SaveCompletion(cid, now, true));
            w.Some? && w.value.id == s.containers[cid].spec.jobID
                && (w.value.status == Succeeded || w.value.status == Failed)
  {
    hide JobsOk, ContainersOk, StartsOk, CancelsOk, ReattachOk, HooksOk, CopyOk;
    SavingIsOk(c, s, cid);
  }

  /** Each writer writes its own kind of row: only the last write of a successful request is not
      terminal, and only a supervisor, for the job of its container, writes a success. */
  lemma WrittenIs(c: Config, s: State, a: Step)
    requires Structure(c, s) && Enabled(c, s, a)
    ensures a.SaveRunning? && a.ok ==> Written(s, a).Some?
    ensures Written(s, a).Some? ==>
              match a
              case SaveFailed(id, _, _) => Written(s, a).value.id == id && Written(s, a).value.status == Failed
              case SaveRunning(id, _, _) => Written(s, a).value.id == id && Written(s, a).value.status == Running
              case CancelSave(_, _, _) => Written(s, a).value.status == Cancelled
              case SaveCompletion(cid, _, _) =>
                && cid in s.containers && s.containers[cid].supervisor.Saving?
                && Written(s, a).value.id == s.containers[cid].spec.jobID
                && (Written(s, a).value.status == Succeeded || Written(s, a).value.status == Failed)
              case ReattachSave(_) => Written(s, a).value.status == Failed
              case _ => false
  {
    hide JobsOk, ContainersOk, StartsOk, HooksOk, CancelsOk, ReattachOk;
    if a.SaveFailed? || a.SaveRunning? {
      OwnWriteIs(c, s, a.id, a.now);
    } else if a.SaveCompletion? {
      SupervisorWriteIs(c, s, a.containerID, a.now);
    } else if Written(s, a).Some? {
      FinisherWriteIs(c, s, a);
    }
  }

  /** The request stores its own row, with nothing changed but what the end of a start writes, at the time of
      the step. */
  lemma RequestSaves(c: Config, s: State, id: JobID, now: Time)
    requires JobsOk(c, s.jobs, s.enqueues, s.clock, s.finished) && id in s.enqueues
    ensures var th := s.enqueues[id];
            && (th.pc.SavingFailed? ==>
                  Written(s, SaveFailed(id, now, true))
                  == Some(th.row.(status := Failed, error := th.pc.reason, finishedAt := Some(now))))
            && (th.container.Some? ==>
                  Written(s, SaveRunning(id, now, true))
                  == Some(th.row.(status := Running, containerID := th.container.value, startedAt := Some(now))))
  {
    hide JobsOk;
    SavedOwnRow(c, s, id);
  }

  /** A cancel stores the copy it read, cancelled at the time of the step. */
  lemma CancelSaves(c: Config, s: State, tid: nat, now: Time)
    requires CancelsOk(s.enqueues, s.cancels, s.clock) && tid in s.cancels
    ensures Written(s, CancelSave(tid, now, true))
         == Some(s.cancels[tid].copy.(status := Cancelled, finishedAt := Some(now)))
  {
    hide CancelsOk;
    CancelCopyIsActive(c, s, tid);
  }

  /** A supervisor stores the copy it read, finished as its report says, at the time of the step. */
  lemma SupervisorSaves(c: Config, s: State, cid: ContainerID, now: Time)
    requires ContainersOk(s.enqueues, s.containers, s.clock, s.finished)
    requires cid in s.containers && s.containers[cid].supervisor.Saving?
    ensures var v := s.containers[cid].supervisor;
            var reason := if v.res.error != "" then v.res.error else "runner exited with non-zero code";
            Written(s, SaveCompletion(cid, now, true))
            == Some(if v.res.exitCode == 0
                    then v.copy.(status := Succeeded, prURL := v.res.prURL, finishedAt := Some(now))
                    else v.copy.(status := Failed, error := reason, finishedAt := Some(now)))
  {
    hide ContainersOk;
    SavingIsActive(c, s, cid);
  }

  /** Recovery stores the copy it listed, failed at the time it read when it began. */
  lemma RecoverySaves(c: Config, s: State)
    requires ReattachOk(s.enqueues, s.reattach, s.clock)
    requires s.reattach.Some? && s.reattach.value.Looping? && s.reattach.value.rows != []
    ensures var t := s.reattach.value;
            Written(s, ReattachSave(true))
            == Some(t.rows[0].(status := Failed, error := "api restarted while runner container gone",
                               finishedAt := Some(t.now)))
  {
    hide ReattachOk;
    HeadIsRunning(c, s);
  }

  lemma SavedOwnRow(c: Config, s: State, id: JobID)
    requires JobsOk(c, s.jobs, s.enqueues, s.clock, s.finished) && id in s.enqueues
    ensures s.enqueues[id].row.status == Queued
  {
    ThreadIsOk(c, s, id);
  }

  lemma CancelCopyIsActive(c: Config, s: State, tid: nat)
    requires CancelsOk(s.enqueues, s.cancels, s.clock) && tid in s.cancels
    ensures s.cancels[tid].copy.IsActive()
  {
  }

  lemma SavingIsActive(c: Config, s: State, cid: ContainerID)
    requires ContainersOk(s.enqueues, s.containers, s.clock, s.finished)
    requires cid in s.containers && s.containers[cid].supervisor.Saving?
    ensures var v := s.containers[cid].supervisor;
            v.copy.IsActive() && (v.res.exitCode == 0 ==> v.copy.status == Running)
  {
    assert ContainerOk(s.enqueues, cid, s.containers[cid], s.clock, s.finished);
  }

  lemma HeadIsRunning(c: Config, s: State)
    requires ReattachOk(s.enqueues, s.reattach, s.clock) && s.reattach.Some? && s.reattach.value.rows != []
    ensures s.reattach.value.rows[0].status == Running
  {
  }

  /** A completion that was stored goes on to the webhook exactly if one is wired and the report names a URL;
      what will be sent is the row that was stored, and the end of the log as it was reported. */
  lemma CompletionNotifies(c: Config, s: State, cid: ContainerID, now: Time, ok: bool)
    requires cid in s.containers && s.containers[cid].supervisor.Saving?
    ensures var v, s' := s.containers[cid].supervisor, DoSaveCompletion(c, s, cid, now, ok);
            && cid in s'.containers && s'.hooks == s.hooks
            && (ok && c.webhookWired && v.res.notificationWebhook != "" <==> s'.containers[cid].supervisor != Gone)
            && (s'.containers[cid].supervisor != Gone ==>
                  && Written(s, SaveCompletion(cid, now, ok)).Some?
                  && var row := Written(s, SaveCompletion(cid, now, ok)).value;
                     s'.containers[cid].supervisor == Notifying(row, v.res.notificationWebhook, v.res.logTail))
  {
    hide Granted;
  }

  /** The call is made once, with exactly that. */
  lemma NotifySends(s: State, cid: ContainerID)
    requires cid in s.containers && s.containers[cid].supervisor.Notifying?
    ensures var v, s' := s.containers[cid].supervisor, DoNotify(s, cid);
            && s'.hooks == s.hooks + [HookCall(cid, v.row, v.url, v.logTail)]
            && cid in s'.containers && s'.containers[cid].supervisor == Gone && s'.jobs == s.jobs
  {
  }

  /** A new id gets its row, queued, as the request asks, at the time the request gives; a known one nothing. */
  lemma CreatedRow(c: Config, s: State, input: EnqueueInput, id: JobID, now: Time)
    ensures var s' := DoCreate(c, s, input, id, now);
            if id in s.jobs then s' == s
            else
              && id in s'.jobs && s'.jobs - {id} == s.jobs && s'.finished == s.finished
              && s'.jobs[id] == JobRow(id, input.userID, Queued, input.repo, input.baseBranch, input.workBranch,
                                       input.spec, input.modelOverride, "", "", "", s'.jobs[id].logPath,
                                       now, None, None)
              && (input.logPath != "" ==> s'.jobs[id].logPath == input.logPath)
  {
    var s' := DoCreate(c, s, input, id, now);
    if id !in s.jobs {
      assert s'.jobs - {id} == s.jobs;
    }
  }

  /** A call of a request that fails is its last: it stores nothing and starts nothing. */
  lemma FailedRequestEnds(c: Config, s: State, id: JobID, now: Time)
    requires id in s.enqueues
    ensures DoCountUser(c, s, id, false) == SetThread(s, id, s.enqueues[id].(pc := Ended(Aborted), seen := s.clock))
    ensures DoCountGlobal(c, s, id, false) == SetThread(s, id, s.enqueues[id].(pc := Ended(Aborted), seen := s.clock))
    ensures DoFetchCreds(s, id, false) == SetThread(s, id, s.enqueues[id].(pc := Ended(Aborted), seen := s.clock))
    ensures DoSaveRunning(s, id, now, false) == SetThread(s, id, s.enqueues[id].(pc := Ended(Unpersisted)))
    ensures s.enqueues[id].pc.SavingFailed? ==>
              DoSaveFailed(s, id, now, false) == SetThread(s, id, s.enqueues[id].(pc := Ended(StartFailed)))
  {
  }

  /** So it is for a cancel and for recovery; a container that could not be stopped does not end a cancel. */
  lemma FailedFinisherEnds(s: State, tid: nat, now: Time)
    ensures tid in s.cancels ==>
              && DoCancelSave(s, tid, now, false) == s.(cancels := s.cancels - {tid})
              && DoCancelStop(s, tid, false)
                 == s.(cancels := s.cancels[tid := CancelThread(s.cancels[tid].copy, false, s.clock)])
    ensures s.reattach.Some? && s.reattach.value.Looping? && s.reattach.value.rows != [] ==>
              DoReattachInspect(s, false) == s.(reattach := None) && DoReattachSave(s, false) == s.(reattach := None)
  {
  }

  /** The environment is free: every call may fail, a clock read may give any time between two calls, a
      container may exit and be reported at any time, and the process may die at any time. */
  lemma RequestsAreFree(c: Config, s: State, id: JobID, now: Time, ok: bool)
    ensures Enabled(c, s, Restart) && Enabled(c, s, Tick(1))
    ensures AtPc(s, id, CountingUser) && c.maxPerUser > 0 ==> Enabled(c, s, CountUser(id, ok))
    ensures AtPc(s, id, CountingGlobal) && c.maxGlobal > 0 ==> Enabled(c, s, CountGlobal(id, ok))
    ensures AtPc(s, id, FetchingCreds) ==> Enabled(c, s, FetchCreds(id, ok))
    ensures AtPc(s, id, Starting) ==> Enabled(c, s, StartFails(id, "reason"))
    ensures id in s.enqueues && s.enqueues[id].seen <= now <= s.clock ==>
              && (s.enqueues[id].pc == SavingRunning ==> Enabled(c, s, SaveRunning(id, now, ok)))
              && (s.enqueues[id].pc.SavingFailed? ==> Enabled(c, s, SaveFailed(id, now, ok)))
  {
  }

  lemma CancelsAreFree(c: Config, s: State, tid: nat, now: Time, ok: bool)
    requires tid in s.cancels
    ensures s.cancels[tid].mustStop ==> Enabled(c, s, CancelStop(tid, ok))
    ensures !s.cancels[tid].mustStop && s.cancels[tid].seen <= now <= s.clock ==>
              Enabled(c, s, CancelSave(tid, now, ok))
  {
  }

  lemma SupervisorsAreFree(c: Config, s: State, cid: ContainerID, res: RunnerResult, now: Time, ok: bool)
    requires cid in s.containers
    ensures Enabled(c, s, ContainerExits(cid))
    ensures var k := s.containers[cid];
            && (k.supervisor == Waiting && res.jobID == k.spec.jobID ==> Enabled(c, s, Report(cid, res)))
            && (k.supervisor.Saving? && k.supervisor.seen <= now <= s.clock ==>
                  Enabled(c, s, SaveCompletion(cid, now, ok)))
  {
  }

  lemma StepFacts(c: Config, s: State, a: Step)
    requires Structure(c, s) && Enabled(c, s, a)
    ensures Structure(c, Do(c, s, a))
    ensures ThreadsGrow(s.enqueues, Do(c, s, a).enqueues)
    ensures s.jobs.Keys <= Do(c, s, a).jobs.Keys && s.finished <= Do(c, s, a).finished
  {
    hide Structure, ThreadsGrow;
    StructureIsBare(c, s);
    StepGrowsThreads(c, s, a);
    StepGrowsHistory(c, s, a);
    StepKeepsStructure(c, s, a);
  }
}
