/** When a terminal row is final. Under interleaving it is not enough that it is terminal: a request,
    a cancel, a report or the recovery loop may still hold an older copy and write over it. */
module JobSettled {
  import opened Wrappers
  import opened JobDomain
  import opened JobProtocol
  import opened JobInvariant
  import opened JobFrames
  import opened JobLifecycle
  import opened JobOutcomes
  import opened Sequential

  // ---- who may still write ----

  ghost predicate RequestPending(ths: Threads, id: JobID) {
    id in ths && !ths[id].pc.Ended?
  }

  ghost predicate CancelPending(cancels: map<nat, CancelThread>, id: JobID) {
    exists tid :: tid in cancels && cancels[tid].copy.id == id
  }

  ghost predicate ReportPending(ks: map<ContainerID, Container>, id: JobID) {
    exists cid :: cid in ks && ks[cid].supervisor.Saving? && ks[cid].supervisor.copy.id == id
  }

  /** Once the loop has read its clock, what it will write is fixed, and may be what is stored already. */
  ghost predicate RecoveryPending(t: Option<ReattachThread>, id: JobID, row: JobRow) {
    && t.Some?
    && exists i :: 0 <= i < |t.value.rows| && t.value.rows[i].id == id
                   && (t.value.Looping? ==> Granted(t.value.rows[i], ToFailed(GONE_REASON), t.value.now) != row)
  }

  ghost predicate InFlight(s: State, id: JobID)
    requires id in s.jobs
  {
    || RequestPending(s.enqueues, id)
    || CancelPending(s.cancels, id)
    || ReportPending(s.containers, id)
    || RecoveryPending(s.reattach, id, s.jobs[id])
  }

  // ---- nothing in flight: the row stays ----

  lemma NothingWritten(c: Config, s: State, a: Step, id: JobID)
    requires Structure(c, s) && Enabled(c, s, a) && id in s.jobs && !InFlight(s, id)
    ensures id in Do(c, s, a).jobs && Do(c, s, a).jobs[id] == s.jobs[id]
  {
    hide Structure, Do, Granted;
    StepRow(c, s, a, id);
    WrittenIs(c, s, a);
    if a.CancelSave? {
      GrantedKeepsId(s.cancels[a.tid].copy, ToCancelled, a.now);
    } else if a.SaveCompletion? {
      var v := s.containers[a.containerID].supervisor;
      GrantedKeepsId(v.copy, Verdict(v.res), a.now);
    } else if a.ReattachSave? {
      var t := s.reattach.value;
      GrantedKeepsId(t.rows[0], ToFailed(GONE_REASON), t.now);
    }
  }

  lemma OthersLeaveCancels(c: Config, s: State, a: Step)
    requires Enabled(c, s, a) && (IsEnqueueStep(a) || IsSupervisorStep(a))
    ensures Do(c, s, a).cancels == s.cancels && Do(c, s, a).reattach == s.reattach
  {
  }

  lemma CancelsComeFromReads(c: Config, s: State, a: Step, tid: nat)
    requires Enabled(c, s, a) && !IsEnqueueStep(a) && !IsSupervisorStep(a) && tid in Do(c, s, a).cancels
    ensures (tid in s.cancels && s.cancels[tid].copy == Do(c, s, a).cancels[tid].copy)
         || (a.CancelRead? && a.id in s.jobs && s.jobs[a.id].IsActive() && s.jobs[a.id].userID == a.userID
             && Do(c, s, a).cancels[tid].copy == s.jobs[a.id])
  {
    hide Granted, DoReattachList, DoReattachInspect, DoReattachSave;
    if IsLoopStep(a) {
      LoopKeepsCancels(c, s, a);
    }
  }

  ghost predicate IsLoopStep(a: Step) {
    a.ReattachList? || a.ReattachClock? || a.ReattachInspect? || a.ReattachSave?
  }

  lemma LoopKeepsCancels(c: Config, s: State, a: Step)
    requires Enabled(c, s, a) && IsLoopStep(a)
    ensures Do(c, s, a).cancels == s.cancels
  {
    hide Granted, RowsOf, IsAlive, DoCancelRead, DoCancelStop, DoCancelSave, DoRestart, DoReport, DoSaveCompletion;
  }

  lemma NoNewCancel(c: Config, s: State, a: Step, id: JobID)
    requires Structure(c, s) && Enabled(c, s, a) && id in s.jobs && s.jobs[id].IsTerminal()
    requires !CancelPending(s.cancels, id)
    ensures !CancelPending(Do(c, s, a).cancels, id)
  {
    hide Structure, Do, Enabled;
    if IsEnqueueStep(a) || IsSupervisorStep(a) {
      OthersLeaveCancels(c, s, a);
    } else {
      forall tid | tid in Do(c, s, a).cancels ensures Do(c, s, a).cancels[tid].copy.id != id {
        CancelsComeFromReads(c, s, a, tid);
        if a.CancelRead? && a.id in s.jobs {
          FiledUnderItsId(c, s, a.id);
        }
      }
    }
  }

  lemma SavingComesFromReports(c: Config, s: State, a: Step, cid: ContainerID)
    requires Enabled(c, s, a) && IsSupervisorStep(a) && cid in Do(c, s, a).containers
    requires Do(c, s, a).containers[cid].supervisor.Saving?
    ensures cid in s.containers
    ensures s.containers[cid].supervisor == Do(c, s, a).containers[cid].supervisor
         || (a.Report? && a.res.jobID in s.jobs && s.jobs[a.res.jobID].IsActive()
             && Do(c, s, a).containers[cid].supervisor.copy == s.jobs[a.res.jobID])
  {
    hide Granted, DoRestart, DoCancelRead, DoCancelStop, DoCancelSave;
  }

  lemma OthersLeaveSaving(c: Config, s: State, a: Step, cid: ContainerID)
    requires Enabled(c, s, a) && !IsSupervisorStep(a) && !IsEnqueueStep(a) && cid in Do(c, s, a).containers
    ensures cid in s.containers
    ensures Do(c, s, a).containers[cid].supervisor in {s.containers[cid].supervisor, Gone}
  {
    hide Granted, DoReport, DoSaveCompletion, DoNotify;
  }

  lemma EnqueueLeavesSaving(c: Config, s: State, a: Step, cid: ContainerID)
    requires Enabled(c, s, a) && IsEnqueueStep(a) && cid in Do(c, s, a).containers
    ensures (cid in s.containers && s.containers[cid] == Do(c, s, a).containers[cid])
         || Do(c, s, a).containers[cid].supervisor == Waiting
  {
    hide Granted, DoReport, DoSaveCompletion, DoNotify;
  }

  lemma NoNewReport(c: Config, s: State, a: Step, id: JobID)
    requires Structure(c, s) && Enabled(c, s, a) && id in s.jobs && s.jobs[id].IsTerminal()
    requires !ReportPending(s.containers, id)
    ensures !ReportPending(Do(c, s, a).containers, id)
  {
    hide Structure, Do, Enabled;
    var ks' := Do(c, s, a).containers;
    forall cid | cid in ks' && ks'[cid].supervisor.Saving? ensures ks'[cid].supervisor.copy.id != id {
      if IsSupervisorStep(a) {
        SavingComesFromReports(c, s, a, cid);
        if a.Report? && a.res.jobID in s.jobs {
          FiledUnderItsId(c, s, a.res.jobID);
        }
      } else if IsEnqueueStep(a) {
        EnqueueLeavesSaving(c, s, a, cid);
      } else {
        OthersLeaveSaving(c, s, a, cid);
      }
    }
  }

  /** What is left of the loop after its head was dealt with. */
  lemma TailIsNotPending(s: State, rows: seq<JobRow>, now: Time, dead: bool, id: JobID, row: JobRow)
    requires rows != [] && !RecoveryPending(Some(Looping(rows, now, dead)), id, row)
    ensures !RecoveryPending(LoopOn(s, rows[1..], now).reattach, id, row)
    ensures !RecoveryPending(Some(Looping(rows, now, !dead)), id, row)
  {
    hide Granted;
    assert forall i :: 0 <= i < |rows[1..]| ==> rows[1..][i] == rows[i + 1];
  }

  lemma LoopStepIsNotPending(c: Config, s: State, a: Step, id: JobID, row: JobRow)
    requires Enabled(c, s, a) && (a.ReattachClock? || a.ReattachInspect? || a.ReattachSave?)
    requires !RecoveryPending(s.reattach, id, row)
    ensures !RecoveryPending(Do(c, s, a).reattach, id, row)
  {
    hide Granted, Apply;
    var t := s.reattach.value;
    if t.Looping? {
      TailIsNotPending(s, t.rows, t.now, t.headIsDead, id, row);
    }
  }

  lemma ListIsNotPending(c: Config, s: State, ids: seq<JobID>, id: JobID)
    requires Structure(c, s) && ListsRunning(s.jobs, ids) && id in s.jobs && s.jobs[id].IsTerminal()
    ensures !RecoveryPending(DoReattachList(s, ids).reattach, id, s.jobs[id])
  {
    hide Structure, Granted;
    forall i | 0 <= i < |ids| ensures RowsOf(s.jobs, ids)[i].id != id {
      FiledUnderItsId(c, s, ids[i]);
    }
  }

  lemma OthersLeaveLoop(c: Config, s: State, a: Step)
    requires Enabled(c, s, a) && !IsEnqueueStep(a) && !IsSupervisorStep(a) && !IsLoopStep(a)
    ensures Do(c, s, a).reattach == s.reattach || Do(c, s, a).reattach == None
  {
    hide Granted;
  }

  lemma NoNewRecovery(c: Config, s: State, a: Step, id: JobID)
    requires Structure(c, s) && Enabled(c, s, a) && id in s.jobs && s.jobs[id].IsTerminal()
    requires !RecoveryPending(s.reattach, id, s.jobs[id])
    ensures !RecoveryPending(Do(c, s, a).reattach, id, s.jobs[id])
  {
    hide Structure, RecoveryPending;
    NoneIsNotPending(id, s.jobs[id]);
    if IsEnqueueStep(a) || IsSupervisorStep(a) {
      OthersLeaveCancels(c, s, a);
    } else if a.ReattachList? {
      ListIsNotPending(c, s, a.ids, id);
    } else if IsLoopStep(a) {
      LoopStepIsNotPending(c, s, a, id, s.jobs[id]);
    } else {
      OthersLeaveLoop(c, s, a);
    }
  }

  lemma NoneIsNotPending(id: JobID, row: JobRow)
    ensures !RecoveryPending(None, id, row)
  {
  }

  lemma NoNewRequest(c: Config, s: State, a: Step, id: JobID)
    requires Structure(c, s) && Enabled(c, s, a) && id in s.jobs && !RequestPending(s.enqueues, id)
    ensures !RequestPending(Do(c, s, a).enqueues, id)
  {
    hide Structure, Do, Enabled;
    StructureIsBare(c, s);
    StepGrowsThreads(c, s, a);
  }

  lemma StepKeepsSettled(c: Config, s: State, a: Step, id: JobID)
    requires Structure(c, s) && Enabled(c, s, a) && id in s.jobs && s.jobs[id].IsTerminal() && !InFlight(s, id)
    ensures id in Do(c, s, a).jobs && Do(c, s, a).jobs[id] == s.jobs[id] && !InFlight(Do(c, s, a), id)
  {
    hide Structure, Do, Enabled, RequestPending, CancelPending, ReportPending, RecoveryPending;
    NothingWritten(c, s, a, id);
    NoNewRequest(c, s, a, id);
    NoNewCancel(c, s, a, id);
    NoNewReport(c, s, a, id);
    NoNewRecovery(c, s, a, id);
  }

  lemma {:induction false} SettledStays(c: Config, s: State, steps: seq<Step>, id: JobID)
    requires Structure(c, s) && ValidRun(c, s, steps)
    requires id in s.jobs && s.jobs[id].IsTerminal() && !InFlight(s, id)
    ensures id in After(c, s, steps).jobs && After(c, s, steps).jobs[id] == s.jobs[id]
    decreases |steps|
  {
    hide Structure, Do, Enabled, InFlight;
    if steps != [] {
      StepKeepsStructure(c, s, steps[0]);
      StepKeepsSettled(c, s, steps[0], id);
      SettledStays(c, Do(c, s, steps[0]), steps[1..], id);
    }
  }

  // ---- something in flight: the row can still change ----

  ghost predicate CanChange(c: Config, s: State, id: JobID)
    requires id in s.jobs
  {
    exists s' :: Leads(c, s, s') && id in s'.jobs && s'.jobs[id] != s.jobs[id]
  }

  lemma CancelHoldsActive(c: Config, s: State, tid: nat)
    requires Structure(c, s) && tid in s.cancels
    ensures s.cancels[tid].copy.IsActive() && s.cancels[tid].seen <= s.clock
  {
    hide JobsOk, ContainersOk, StartsOk, ReattachOk, HooksOk;
    assert CopyOk(s.enqueues, s.cancels[tid].copy, s.cancels[tid].seen, s.clock);
  }

  lemma CancelCanWrite(c: Config, s: State, id: JobID)
    requires Structure(c, s) && id in s.jobs && s.jobs[id].IsTerminal() && CancelPending(s.cancels, id)
    ensures CanChange(c, s, id)
  {
    hide Leads, Structure, After, ValidRun;
    var tid :| tid in s.cancels && s.cancels[tid].copy.id == id;
    FiledUnderItsId(c, s, id);
    CancelHoldsActive(c, s, tid);
    Stay(c, s);
    var s1 := s;
    if s.cancels[tid].mustStop {
      Then(c, s, s, CancelStop(tid, false));
      s1 := DoCancelStop(s, tid, false);
    }
    Then(c, s, s1, Tick(1));
    var s2 := s1.(clock := s.clock + 1);
    Then(c, s, s2, CancelSave(tid, s2.clock, true));
    var s3 := DoCancelSave(s2, tid, s2.clock, true);
    assert s3.jobs[id].finishedAt == Some(s.clock + 1);
  }

  lemma ReportCanWrite(c: Config, s: State, id: JobID)
    requires Structure(c, s) && id in s.jobs && s.jobs[id].IsTerminal() && ReportPending(s.containers, id)
    ensures CanChange(c, s, id)
  {
    hide Leads, JobsOk, ContainersOk, StartsOk, CancelsOk, ReattachOk, HooksOk, RowThreadOk;
    var cid :| cid in s.containers && s.containers[cid].supervisor.Saving?
        && s.containers[cid].supervisor.copy.id == id;
    FiledUnderItsId(c, s, id);
    SavingIsOk(c, s, cid);
    var v := s.containers[cid].supervisor;
    Stay(c, s);
    Then(c, s, s, Tick(1));
    var s1 := s.(clock := s.clock + 1);
    Then(c, s, s1, SaveCompletion(cid, s1.clock, true));
    SavedAtClock(c, s1, cid);
    assert Leads(c, s, DoSaveCompletion(c, s1, cid, s1.clock, true));
  }

  lemma SavedAtClock(c: Config, s: State, cid: ContainerID)
    requires cid in s.containers && s.containers[cid].supervisor.Saving?
    requires var v := s.containers[cid].supervisor; v.copy.id in s.jobs && Apply(v.copy, Verdict(v.res), s.clock).Ok?
    ensures var id, s' := s.containers[cid].supervisor.copy.id, DoSaveCompletion(c, s, cid, s.clock, true);
            id in s'.jobs && s'.jobs[id].finishedAt == Some(s.clock)
  {
  }

  /** The loop, left alone, gets to the row at i, whose container is gone, and writes it. */
  lemma LoopReaches(c: Config, s0: State, s: State, i: nat, id: JobID, row: JobRow) returns (s': State)
    requires Leads(c, s0, s) && s.reattach.Some? && s.reattach.value.Looping? && i < |s.reattach.value.rows|
    requires id in s.jobs && s.jobs[id] == row
    requires var t := s.reattach.value;
             && t.rows[i].id == id && !IsAlive(s, t.rows[i].containerID)
             && Granted(t.rows[i], ToFailed(GONE_REASON), t.now) != row
    ensures Leads(c, s0, s') && id in s'.jobs && s'.jobs[id] != row
    decreases i
  {
    hide Leads, Granted;
    var t := s.reattach.value;
    s' := s;
    if !t.headIsDead {
      Then(c, s0, s, ReattachInspect(true));
      s' := DoReattachInspect(s, true);
    }
    if !t.headIsDead && IsAlive(s, t.rows[0].containerID) {
      s' := LoopReaches(c, s0, s', i - 1, id, row);
    } else {
      GrantedKeepsId(t.rows[0], ToFailed(GONE_REASON), t.now);
      Then(c, s0, s', ReattachSave(true));
      s' := DoReattachSave(s', true);
      if s'.jobs[id] == row {
        s' := LoopReaches(c, s0, s', i - 1, id, row);
      }
    }
  }

  /** The container of that row exits first, and if the loop has not read its clock yet, time passes. */
  lemma RecoveryCanWrite(c: Config, s: State, id: JobID)
    requires Structure(c, s) && id in s.jobs && s.jobs[id].IsTerminal()
    requires RecoveryPending(s.reattach, id, s.jobs[id])
    ensures CanChange(c, s, id)
  {
    hide Leads, Structure, Granted;
    FiledUnderItsId(c, s, id);
    var t := s.reattach.value;
    var i :| 0 <= i < |t.rows| && t.rows[i].id == id
             && (t.Looping? ==> Granted(t.rows[i], ToFailed(GONE_REASON), t.now) != s.jobs[id]);
    var cid := t.rows[i].containerID;
    Stay(c, s);
    var s1 := ExitIfThere(c, s, cid);
    if t.Listed? {
      s1 := ReadsTheClock(c, s, s1);
      ListedIsRunning(c, s, i, s1.clock);
    }
    var s' := LoopReaches(c, s, s1, i, id, s.jobs[id]);
  }

  lemma ExitIfThere(c: Config, s: State, cid: ContainerID) returns (s': State)
    ensures Leads(c, s, s') && !IsAlive(s', cid) && s' == s.(containers := s'.containers)
  {
    hide Leads;
    Stay(c, s);
    s' := s;
    if cid in s.containers {
      Then(c, s, s, ContainerExits(cid));
      s' := Kill(s, cid);
    }
  }

  lemma ReadsTheClock(c: Config, s0: State, s: State) returns (s': State)
    requires Leads(c, s0, s) && s.reattach.Some? && s.reattach.value.Listed? && s.reattach.value.rows != []
    ensures Leads(c, s0, s') && s'.jobs == s.jobs && s'.containers == s.containers && s'.clock == s.clock + 1
    ensures s'.reattach == Some(Looping(s.reattach.value.rows, s'.clock, false))
  {
    hide Leads;
    Then(c, s0, s, Tick(1));
    s' := s.(clock := s.clock + 1);
    Then(c, s0, s', ReattachClock);
    s' := LoopOn(s', s.reattach.value.rows, s'.clock);
  }

  lemma ListedIsRunning(c: Config, s: State, i: nat, now: Time)
    requires Structure(c, s) && s.reattach.Some? && i < |s.reattach.value.rows|
    ensures Granted(s.reattach.value.rows[i], ToFailed(GONE_REASON), now).finishedAt == Some(now)
  {
    hide JobsOk, ContainersOk, StartsOk, CancelsOk, HooksOk;
  }

  // ---- a request can always be let through ----

  lemma {:induction false} Above(xs: set<nat>) returns (n: nat)
    ensures forall x :: x in xs ==> x < n
    decreases xs
  {
    if xs == {} {
      n := 0;
    } else {
      var top :| top in xs;
      var rest := Above(xs - {top});
      n := if rest > top then rest else top + 1;
      assert forall x :: x in xs ==> x == top || x in xs - {top};
    }
  }

  /** The owner of an active job cancels it, without disturbing anything else. */
  lemma CancelNow(c: Config, s0: State, s: State, id: JobID) returns (s': State)
    requires Leads(c, s0, s) && Structure(c, s) && id in s.jobs && s.jobs[id].IsActive()
    ensures Leads(c, s0, s') && Structure(c, s')
    ensures s'.enqueues == s.enqueues && s'.clock == s.clock && s'.containers == s.containers
    ensures s'.jobs == s.jobs[id := Granted(s.jobs[id], ToCancelled, s.clock)] && s'.jobs[id].IsTerminal()
  {
    hide Leads, Structure;
    FiledUnderItsId(c, s, id);
    var tid := Above(s.cancels.Keys);
    Then(c, s0, s, CancelRead(tid, id, s.jobs[id].userID));
    CancelReadKeeps(c, s, tid, id, s.jobs[id].userID);
    s' := DoCancelRead(s, tid, id, s.jobs[id].userID);
    if s'.cancels[tid].mustStop {
      Then(c, s0, s', CancelStop(tid, false));
      CancelStopKeeps(c, s', tid, false);
      s' := DoCancelStop(s', tid, false);
    }
    Then(c, s0, s', CancelSave(tid, s.clock, true));
    CancelSaveKeeps(c, s', tid, s.clock, true);
    s' := DoCancelSave(s', tid, s.clock, true);
  }

  lemma {:induction false} ClearAll(c: Config, s0: State, s: State) returns (s': State)
    requires Leads(c, s0, s) && Structure(c, s)
    ensures Leads(c, s0, s') && Structure(c, s') && ActiveAll(s'.jobs) == {}
    ensures s'.enqueues == s.enqueues && s'.clock == s.clock && s'.containers == s.containers
    ensures s'.jobs.Keys == s.jobs.Keys
    ensures forall id :: id in s.jobs && s.jobs[id].IsTerminal() ==> s'.jobs[id] == s.jobs[id]
    decreases ActiveAll(s.jobs)
  {
    hide Leads, Structure;
    s' := s;
    if ActiveAll(s.jobs) != {} {
      var id :| id in ActiveAll(s.jobs);
      s' := CancelNow(c, s0, s, id);
      assert id !in ActiveAll(s'.jobs) && ActiveAll(s'.jobs) <= ActiveAll(s.jobs);
      s' := ClearAll(c, s0, s');
    }
  }

  /** With nobody active both cap checks let a request through. */
  lemma ThroughTheChecks(c: Config, s0: State, s: State, id: JobID) returns (s': State)
    requires Leads(c, s0, s) && ActiveAll(s.jobs) == {} && id in s.jobs
    requires AtPc(s, id, CountingUser) || AtPc(s, id, CountingGlobal) || AtPc(s, id, FetchingCreds)
             || AtPc(s, id, Starting)
    ensures Leads(c, s0, s') && s'.jobs == s.jobs && s'.clock == s.clock
    ensures id in s'.enqueues && s'.enqueues[id].pc == SavingFailed("") && s'.enqueues[id].seen == s.clock
    ensures s'.enqueues[id].row == s.enqueues[id].row
  {
    hide Leads, ActiveAll, ActiveFor;
    s' := s;
    if AtPc(s', id, CountingUser) {
      NobodyIsActive(s.jobs, s.enqueues[id].input.userID);
      Then(c, s0, s', CountUser(id, true));
      s' := DoCountUser(c, s', id, true);
    }
    if AtPc(s', id, CountingGlobal) {
      Then(c, s0, s', CountGlobal(id, true));
      s' := DoCountGlobal(c, s', id, true);
    }
    if AtPc(s', id, FetchingCreds) {
      Then(c, s0, s', FetchCreds(id, true));
      s' := DoFetchCreds(s', id, true);
    }
    Then(c, s0, s', StartFails(id, ""));
    s' := DoStartFails(s', id, "");
  }

  lemma NobodyIsActive(m: map<JobID, JobRow>, u: UserID)
    requires ActiveAll(m) == {}
    ensures ActiveFor(m, u) == {}
  {
    assert ActiveFor(m, u) <= ActiveAll(m);
  }

  lemma SavesAFailure(c: Config, s0: State, s: State, id: JobID, row: JobRow)
    requires Leads(c, s0, s) && id in s.jobs && id in s.enqueues && s.enqueues[id].pc.SavingFailed?
    requires s.enqueues[id].seen <= s.clock && s.enqueues[id].row.id == id && s.enqueues[id].row.status == Queued
    requires row.finishedAt.Some? && row.finishedAt.value <= s.clock
    ensures exists s' :: Leads(c, s0, s') && id in s'.jobs && s'.jobs[id] != row
  {
    hide Leads;
    Then(c, s0, s, Tick(1));
    var s1 := s.(clock := s.clock + 1);
    Then(c, s0, s1, SaveFailed(id, s1.clock, true));
    var s2 := DoSaveFailed(s1, id, s1.clock, true);
    assert s2.jobs[id].finishedAt == Some(s1.clock);
  }

  lemma SavesRunning(c: Config, s: State, id: JobID)
    requires id in s.jobs && AtPc(s, id, SavingRunning) && s.enqueues[id].container.Some?
    requires s.enqueues[id].seen <= s.clock && s.enqueues[id].row.id == id && s.enqueues[id].row.status == Queued
    requires s.jobs[id].IsTerminal()
    ensures CanChange(c, s, id)
  {
    hide Leads;
    Stay(c, s);
    Then(c, s, s, SaveRunning(id, s.clock, true));
    var s1 := DoSaveRunning(s, id, s.clock, true);
    assert s1.jobs[id].status == Running;
  }

  lemma OwnRowIsQueued(c: Config, s: State, id: JobID)
    requires Structure(c, s) && id in s.enqueues
    ensures id in s.jobs && s.enqueues[id].row.id == id && s.enqueues[id].row.status == Queued
    ensures s.enqueues[id].seen <= s.clock && (s.enqueues[id].pc == SavingRunning ==> s.enqueues[id].container.Some?)
  {
    ThreadIsOk(c, s, id);
  }

  lemma RequestCanWrite(c: Config, s: State, id: JobID)
    requires Structure(c, s) && id in s.jobs && s.jobs[id].IsTerminal() && RequestPending(s.enqueues, id)
    ensures CanChange(c, s, id)
  {
    hide Leads, Structure;
    FiledUnderItsId(c, s, id);
    OwnRowIsQueued(c, s, id);
    Stay(c, s);
    if s.enqueues[id].pc == SavingRunning {
      SavesRunning(c, s, id);
    } else if s.enqueues[id].pc.SavingFailed? {
      SavesAFailure(c, s, s, id, s.jobs[id]);
    } else {
      var s1 := ClearAll(c, s, s);
      var s2 := ThroughTheChecks(c, s, s1, id);
      SavesAFailure(c, s, s2, id, s.jobs[id]);
    }
  }

  // ---- the exact condition ----

  /** In every reachable state a terminal row can still change if and only if its own request has not
      ended, or a cancel, a report or the recovery loop holds an older copy that it has yet to write. */
  lemma FinalExactly(c: Config, s: State, id: JobID)
    requires Reachable(c, s) && id in s.jobs && s.jobs[id].IsTerminal()
    ensures CanChange(c, s, id) <==> InFlight(s, id)
  {
    hide Structure, InFlight, Do, Enabled;
    ReachableIsStructured(c, s);
    if InFlight(s, id) {
      InFlightCanWrite(c, s, id);
    }
    if CanChange(c, s, id) && !InFlight(s, id) {
      var s' :| Leads(c, s, s') && id in s'.jobs && s'.jobs[id] != s.jobs[id];
      var steps :| ValidRun(c, s, steps) && After(c, s, steps) == s';
      SettledStays(c, s, steps, id);
    }
  }

  lemma InFlightCanWrite(c: Config, s: State, id: JobID)
    requires Structure(c, s) && id in s.jobs && s.jobs[id].IsTerminal() && InFlight(s, id)
    ensures CanChange(c, s, id)
  {
    hide Structure, CanChange, RequestPending, CancelPending, ReportPending, RecoveryPending;
    if RequestPending(s.enqueues, id) {
      RequestCanWrite(c, s, id);
    } else if CancelPending(s.cancels, id) {
      CancelCanWrite(c, s, id);
    } else if ReportPending(s.containers, id) {
      ReportCanWrite(c, s, id);
    } else {
      RecoveryCanWrite(c, s, id);
    }
  }

  // ---- a container no row knows of ----

  ghost predicate NeverExits(steps: seq<Step>, cid: ContainerID) {
    forall i :: 0 <= i < |steps| ==> steps[i] != ContainerExits(cid)
  }

  /** The request for this job started a container and ended without writing so. */
  ghost predicate Stranded(s: State, id: JobID, cid: ContainerID) {
    && id in s.enqueues && s.enqueues[id].container == Some(cid)
    && (s.enqueues[id].pc == Ended(Killed) || s.enqueues[id].pc == Ended(Unpersisted))
  }

  /** A cancel stops only a container that the row named when it was read. */
  lemma OnlyNamedIsStopped(c: Config, s: State, tid: nat, id: JobID, cid: ContainerID)
    requires Structure(c, s) && Stranded(s, id, cid) && tid in s.cancels && s.cancels[tid].mustStop
    ensures s.cancels[tid].copy.containerID != cid
  {
    hide JobsOk, ContainersOk, ReattachOk, HooksOk;
  }

  lemma StopSparesStranded(c: Config, s: State, tid: nat, ok: bool, id: JobID, cid: ContainerID)
    requires Structure(c, s) && Stranded(s, id, cid) && Enabled(c, s, CancelStop(tid, ok)) && IsAlive(s, cid)
    ensures IsAlive(Do(c, s, CancelStop(tid, ok)), cid)
  {
    hide Structure;
    OnlyNamedIsStopped(c, s, tid, id, cid);
  }

  lemma OthersKeepAlive(c: Config, s: State, a: Step, cid: ContainerID)
    requires Enabled(c, s, a) && !a.CancelStop? && a != ContainerExits(cid) && IsAlive(s, cid)
    requires !IsEnqueueStep(a)
    ensures IsAlive(Do(c, s, a), cid)
  {
    hide Granted;
  }

  lemma StepKeepsStranded(c: Config, s: State, a: Step, id: JobID, cid: ContainerID)
    requires Structure(c, s) && Enabled(c, s, a) && Stranded(s, id, cid)
    requires a != ContainerExits(cid) && IsAlive(s, cid)
    ensures Stranded(Do(c, s, a), id, cid) && IsAlive(Do(c, s, a), cid)
  {
    hide Structure, Do, Enabled;
    StructureIsBare(c, s);
    StepGrowsThreads(c, s, a);
    if a.CancelStop? {
      StopSparesStranded(c, s, a.tid, a.ok, id, cid);
    } else if IsEnqueueStep(a) {
      EnqueueKeepsContainers(c, s, a, cid);
    } else {
      OthersKeepAlive(c, s, a, cid);
    }
  }

  lemma {:induction false} RunKeepsStranded(c: Config, s: State, steps: seq<Step>, id: JobID, cid: ContainerID)
    requires Structure(c, s) && ValidRun(c, s, steps) && Stranded(s, id, cid) && IsAlive(s, cid)
    requires NeverExits(steps, cid)
    ensures Stranded(After(c, s, steps), id, cid) && IsAlive(After(c, s, steps), cid)
    decreases |steps|
  {
    hide Structure, Do, Enabled, Stranded, IsAlive;
    if steps != [] {
      StepKeepsStructure(c, s, steps[0]);
      StepKeepsStranded(c, s, steps[0], id, cid);
      assert forall i :: 0 <= i < |steps[1..]| ==> steps[1..][i] == steps[i + 1];
      RunKeepsStranded(c, Do(c, s, steps[0]), steps[1..], id, cid);
    }
  }

  /** If a request dies, or its last Update fails, after its container was started, no cancel and no
      recovery ever stops that container: it lives until it exits, which stands for its own end and for
      its supervisor, while there is one, killing it at the deadline. The row never names it and never
      runs or succeeds; as long as it is queued it counts against the caps. */
  lemma StrandedForEver(c: Config, s: State, steps: seq<Step>, id: JobID, cid: ContainerID)
    requires Reachable(c, s) && Stranded(s, id, cid) && IsAlive(s, cid)
    requires ValidRun(c, s, steps) && NeverExits(steps, cid)
    ensures IsAlive(After(c, s, steps), cid) && id in After(c, s, steps).jobs
    ensures var r := After(c, s, steps).jobs[id];
            && r.containerID == "" && r.startedAt.None?
            && (r.status == Queued || r.status == Cancelled || r.status == Failed)
            && (r.status == Queued ==> id in ActiveFor(After(c, s, steps).jobs, r.userID))
  {
    hide Structure;
    ReachableIsStructured(c, s);
    RunKeepsStranded(c, s, steps, id, cid);
    RunKeepsStructure(c, s, steps);
    StrandedRow(c, After(c, s, steps), id, cid);
  }

  lemma StrandedRow(c: Config, s: State, id: JobID, cid: ContainerID)
    requires Structure(c, s) && Stranded(s, id, cid)
    ensures id in s.jobs && s.jobs[id].containerID == "" && s.jobs[id].startedAt.None?
    ensures s.jobs[id].status == Queued || s.jobs[id].status == Cancelled || s.jobs[id].status == Failed
  {
    ThreadIsOk(c, s, id);
  }

  // ---- rows after a restart ----

  /** The owner of the active row reads it in order to cancel it. */
  ghost predicate OwnerCancels(a: Step, id: JobID, row: JobRow) {
    a.CancelRead? && a.id == id && a.userID == row.userID && row.IsActive()
  }

  /** The recovery loop is at this job and finds its container gone. */
  ghost predicate FoundGone(s: State, a: Step, id: JobID) {
    && a == ReattachInspect(true) && s.reattach.Some? && s.reattach.value.Looping? && s.reattach.value.rows != []
    && s.reattach.value.rows[0].id == id && !IsAlive(s, s.reattach.value.rows[0].containerID)
  }

  /** Neither happens to the job in this run. */
  ghost predicate LeftAlone(c: Config, s: State, steps: seq<Step>, id: JobID, row: JobRow)
    requires ValidRun(c, s, steps)
    decreases |steps|
  {
    steps == [] || (!OwnerCancels(steps[0], id, row) && !FoundGone(s, steps[0], id)
                    && LeftAlone(c, Do(c, s, steps[0]), steps[1..], id, row))
  }

  /** The loop is not about to write the row of this job. */
  ghost predicate LoopSpares(t: Option<ReattachThread>, id: JobID) {
    t.Some? && t.value.Looping? && t.value.headIsDead && t.value.rows != [] ==> t.value.rows[0].id != id
  }

  /** Nobody who was there before the restart is left to write the row, and the loop is not about to. */
  ghost predicate Unattended(s: State, id: JobID) {
    && id in s.jobs && RequestEnded(s, id) && !CancelPending(s.cancels, id) && LoopSpares(s.reattach, id)
    && forall cid :: cid in s.containers && s.containers[cid].spec.jobID == id ==> s.containers[cid].supervisor == Gone
  }

  lemma UnattendedIsNotReported(c: Config, s: State, id: JobID)
    requires Structure(c, s) && Unattended(s, id)
    ensures !ReportPending(s.containers, id)
  {
    hide JobsOk, StartsOk, CancelsOk, ReattachOk, HooksOk;
    forall cid | cid in s.containers && s.containers[cid].supervisor.Saving?
      ensures s.containers[cid].supervisor.copy.id != id
    {
      assert ContainerOk(s.enqueues, cid, s.containers[cid], s.clock, s.finished);
    }
  }

  lemma UnattendedRow(c: Config, s: State, a: Step, id: JobID)
    requires Structure(c, s) && Enabled(c, s, a) && Unattended(s, id)
    ensures id in Do(c, s, a).jobs && Do(c, s, a).jobs[id] == s.jobs[id]
  {
    hide Structure, Do, Granted;
    StepRow(c, s, a, id);
    WrittenIs(c, s, a);
    UnattendedIsNotReported(c, s, id);
    if a.CancelSave? {
      GrantedKeepsId(s.cancels[a.tid].copy, ToCancelled, a.now);
    } else if a.SaveCompletion? {
      var v := s.containers[a.containerID].supervisor;
      GrantedKeepsId(v.copy, Verdict(v.res), a.now);
    } else if a.ReattachSave? {
      var t := s.reattach.value;
      GrantedKeepsId(t.rows[0], ToFailed(GONE_REASON), t.now);
    }
  }

  lemma UnattendedContainers(c: Config, s: State, a: Step, id: JobID, cid: ContainerID)
    requires Enabled(c, s, a) && Unattended(s, id)
    requires cid in Do(c, s, a).containers && Do(c, s, a).containers[cid].spec.jobID == id
    ensures Do(c, s, a).containers[cid].supervisor == Gone
  {
    hide Do, Enabled;
    if cid in s.containers {
      ContainerAdvances(c, s, a, cid);
    } else if IsEnqueueStep(a) {
      EnqueueKeepsContainers(c, s, a, cid);
    } else if IsSupervisorStep(a) {
      SupervisorAdvances(c, s, a, cid);
    } else {
      FinisherKeepsSupervisors(c, s, a, cid);
    }
  }

  lemma UnattendedCancels(c: Config, s: State, a: Step, id: JobID)
    requires Structure(c, s) && Enabled(c, s, a) && Unattended(s, id) && !OwnerCancels(a, id, s.jobs[id])
    ensures !CancelPending(Do(c, s, a).cancels, id)
  {
    hide Structure, Do, Enabled;
    if IsEnqueueStep(a) || IsSupervisorStep(a) {
      OthersLeaveCancels(c, s, a);
    } else {
      forall tid | tid in Do(c, s, a).cancels ensures Do(c, s, a).cancels[tid].copy.id != id {
        CancelsComeFromReads(c, s, a, tid);
        if a.CancelRead? && a.id in s.jobs {
          FiledUnderItsId(c, s, a.id);
        }
      }
    }
  }

  lemma LoopStepSpares(c: Config, s: State, a: Step, id: JobID)
    requires Enabled(c, s, a) && IsLoopStep(a) && LoopSpares(s.reattach, id) && !FoundGone(s, a, id)
    ensures LoopSpares(Do(c, s, a).reattach, id)
  {
    hide Granted, RowsOf, DoCancelRead, DoCancelStop, DoCancelSave, DoRestart, DoReport, DoSaveCompletion;
  }

  lemma UnattendedLoop(c: Config, s: State, a: Step, id: JobID)
    requires Enabled(c, s, a) && LoopSpares(s.reattach, id) && !FoundGone(s, a, id)
    ensures LoopSpares(Do(c, s, a).reattach, id)
  {
    hide Do, Enabled;
    if IsEnqueueStep(a) || IsSupervisorStep(a) {
      OthersLeaveCancels(c, s, a);
    } else if IsLoopStep(a) {
      LoopStepSpares(c, s, a, id);
    } else {
      OthersLeaveLoop(c, s, a);
    }
  }

  lemma StepKeepsUnattended(c: Config, s: State, a: Step, id: JobID)
    requires Structure(c, s) && Enabled(c, s, a) && Unattended(s, id)
    requires !OwnerCancels(a, id, s.jobs[id]) && !FoundGone(s, a, id)
    ensures Unattended(Do(c, s, a), id) && Do(c, s, a).jobs[id] == s.jobs[id]
  {
    hide Structure, Do, Enabled, CancelPending, LoopSpares, FoundGone;
    UnattendedRow(c, s, a, id);
    StructureIsBare(c, s);
    StepGrowsThreads(c, s, a);
    UnattendedCancels(c, s, a, id);
    UnattendedLoop(c, s, a, id);
    forall cid | cid in Do(c, s, a).containers && Do(c, s, a).containers[cid].spec.jobID == id
      ensures Do(c, s, a).containers[cid].supervisor == Gone
    {
      UnattendedContainers(c, s, a, id, cid);
    }
  }

  lemma {:induction false} RunKeepsUnattended(c: Config, s: State, steps: seq<Step>, id: JobID, row: JobRow)
    requires Structure(c, s) && ValidRun(c, s, steps) && Unattended(s, id) && id in s.jobs && s.jobs[id] == row
    requires LeftAlone(c, s, steps, id, row)
    ensures id in After(c, s, steps).jobs && After(c, s, steps).jobs[id] == row
    decreases |steps|
  {
    hide Structure, Do, Enabled, Unattended, OwnerCancels, FoundGone;
    if steps != [] {
      StepKeepsStructure(c, s, steps[0]);
      StepKeepsUnattended(c, s, steps[0], id);
      UnattendedIsStored(Do(c, s, steps[0]), id);
      RunKeepsUnattended(c, Do(c, s, steps[0]), steps[1..], id, row);
    }
  }

  lemma UnattendedIsStored(s: State, id: JobID)
    requires Unattended(s, id)
    ensures id in s.jobs
  {
  }

  /** After a restart, however often recovery runs, a row changes only if its owner cancels it while it is
      active or an inspection by the recovery loop finds its container gone. Until then it stays as it is
      and, if it was active, keeps counting against the caps, whatever becomes of its container. */
  lemma RestartFreezesRows(c: Config, s: State, steps: seq<Step>, id: JobID)
    requires Reachable(c, s) && id in s.jobs && ValidRun(c, DoRestart(s), steps)
    requires LeftAlone(c, DoRestart(s), steps, id, s.jobs[id])
    ensures var s' := After(c, DoRestart(s), steps);
            && id in s'.jobs && s'.jobs[id] == s.jobs[id]
            && (s.jobs[id].IsActive() ==> id in ActiveFor(s'.jobs, s.jobs[id].userID) && id in ActiveAll(s'.jobs))
  {
    hide Structure, ValidRun, After, Reachable, LeftAlone;
    ReachableIsStructured(c, s);
    StructureIsBare(c, s);
    RestartKeeps(c, s);
    RunKeepsUnattended(c, DoRestart(s), steps, id, s.jobs[id]);
  }

  /** While no startup lists the rows there is no loop to find anything. */
  lemma {:induction false} NoLoopFindsNothing(c: Config, s: State, steps: seq<Step>, id: JobID, row: JobRow)
    requires ValidRun(c, s, steps) && s.reattach == None
    requires forall i :: 0 <= i < |steps| ==> !OwnerCancels(steps[i], id, row) && !steps[i].ReattachList?
    ensures LeftAlone(c, s, steps, id, row)
    decreases |steps|
  {
    hide Do, Enabled, OwnerCancels;
    if steps != [] {
      NoLoopStays(c, s, steps[0]);
      assert forall i :: 0 <= i < |steps[1..]| ==> steps[1..][i] == steps[i + 1];
      NoLoopFindsNothing(c, Do(c, s, steps[0]), steps[1..], id, row);
    }
  }

  lemma NoLoopStays(c: Config, s: State, a: Step)
    requires Enabled(c, s, a) && s.reattach == None && !a.ReattachList?
    ensures Do(c, s, a).reattach == None
  {
    hide Do;
    if IsEnqueueStep(a) || IsSupervisorStep(a) {
      OthersLeaveCancels(c, s, a);
    } else {
      OthersLeaveLoop(c, s, a);
    }
  }

  /** A job without anyone to look after it, once the startup recovery is over, stays as it is for the
      life of the process, unless its owner cancels it. */
  lemma SkippedStays(c: Config, s: State, steps: seq<Step>, id: JobID)
    requires Reachable(c, s) && Unattended(s, id) && s.reattach == None && ValidRun(c, s, steps)
    requires forall i :: 0 <= i < |steps| ==> !OwnerCancels(steps[i], id, s.jobs[id]) && !steps[i].ReattachList?
    ensures id in After(c, s, steps).jobs && After(c, s, steps).jobs[id] == s.jobs[id]
  {
    hide Structure, ValidRun, After, Reachable, LeftAlone;
    ReachableIsStructured(c, s);
    NoLoopFindsNothing(c, s, steps, id, s.jobs[id]);
    RunKeepsUnattended(c, s, steps, id, s.jobs[id]);
  }
}
