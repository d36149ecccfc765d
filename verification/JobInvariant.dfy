/** What every interleaving of the job lifecycle keeps. The predicates take the components
    of the state they speak about, so that a step leaves most of them literally as they are. */
module JobInvariant {
  import opened Wrappers
  import opened JobDomain
  import opened JobProtocol

  type Threads = map<JobID, EnqueueThread>

  /** A row next to the request that created it. The row may only leave the queued and
      cancelled statuses after the request has started a container or failed to. */
  ghost predicate RowThreadOk(c: Config, id: JobID, r: JobRow, th: EnqueueThread, clock: Time, everFinished: bool) {
    && r.id == id && r.WellFormed() && r.StampedBy(clock)
    && r.SameIdentity(th.row)
    && ThreadOk(c, id, th, clock)
    && (r.startedAt.Some? ==> th.pc == Ended(Persisted) && th.container == Some(r.containerID))
    && (th.container.None? ==>
        r.status == Queued || r.status == Cancelled || (r.status == Failed && th.pc == Ended(StartFailed)))
    && (r.IsTerminal() ==> everFinished)
  }

  ghost predicate ThreadOk(c: Config, id: JobID, th: EnqueueThread, clock: Time) {
    && id != "" && th.input.Valid() && th.row == RowFor(c, id, th.input, th.row.createdAt)
    && th.row.createdAt <= th.seen <= clock
    && (th.pc == SavingRunning || th.pc == Ended(Persisted) ==> th.container.Some?)
    && (th.container.Some? ==>
        th.pc == SavingRunning || th.pc == Ended(Persisted) || th.pc == Ended(Unpersisted) || th.pc == Ended(Killed))
    && (th.pc == CountingGlobal ==> th.passedUser)
    && (th.pc == FetchingCreds || th.pc == Starting || th.pc.SavingFailed? || th.container.Some? ==>
        th.passedUser && th.passedGlobal)
  }

  ghost predicate JobsOk(c: Config, jobs: map<JobID, JobRow>, ths: Threads, clock: Time, finished: set<JobID>) {
    && jobs.Keys == ths.Keys
    && forall id :: id in jobs ==> RowThreadOk(c, id, jobs[id], ths[id], clock, id in finished)
  }

  /** A row a thread read earlier and means to overwrite with a terminal version. */
  ghost predicate CopyOk(ths: Threads, r: JobRow, seen: Time, clock: Time) {
    && r.id in ths
    && r.WellFormed() && r.IsActive() && r.StampedBy(seen) && seen <= clock
    && r.SameIdentity(ths[r.id].row)
    && (r.startedAt.Some? ==> ths[r.id].pc == Ended(Persisted) && ths[r.id].container == Some(r.containerID))
  }

  ghost predicate SupervisorOk(ths: Threads, id: JobID, v: Supervisor, clock: Time, finished: set<JobID>) {
    match v
    case Waiting => true
    case Gone => true
    case Saving(copy, res, seen) =>
      CopyOk(ths, copy, seen, clock) && copy.id == id && (res.exitCode == 0 ==> copy.status == Running)
    case Notifying(row, url, _) =>
      row.IsTerminal() && row.id == id && id in finished && url != ""
  }

  ghost predicate ContainerOk(ths: Threads, cid: ContainerID, k: Container, clock: Time, finished: set<JobID>) {
    && k.spec.jobID in ths
    && ths[k.spec.jobID].container == Some(cid)
    && k.spec == SpecFor(k.spec.jobID, ths[k.spec.jobID].input)
    && SupervisorOk(ths, k.spec.jobID, k.supervisor, clock, finished)
  }

  ghost predicate ContainersOk(ths: Threads, ks: map<ContainerID, Container>, clock: Time, finished: set<JobID>) {
    forall cid :: cid in ks ==> ContainerOk(ths, cid, ks[cid], clock, finished)
  }

  /** Every container a request recorded exists and was started for its job. */
  ghost predicate StartsOk(ths: Threads, ks: map<ContainerID, Container>) {
    forall id :: id in ths && ths[id].container.Some? ==>
      ths[id].container.value in ks && ks[ths[id].container.value].spec.jobID == id
  }

  ghost predicate CancelsOk(ths: Threads, cancels: map<nat, CancelThread>, clock: Time) {
    forall tid :: tid in cancels ==>
      && CopyOk(ths, cancels[tid].copy, cancels[tid].seen, clock)
      && (cancels[tid].mustStop ==> cancels[tid].copy.containerID != "")
  }

  ghost predicate ReattachRowsOk(ths: Threads, rows: seq<JobRow>, seen: Time, clock: Time) {
    forall i :: 0 <= i < |rows| ==> CopyOk(ths, rows[i], seen, clock) && rows[i].status == Running
  }

  ghost predicate ReattachOk(ths: Threads, t: Option<ReattachThread>, clock: Time) {
    match t
    case None => true
    case Some(Listed(rows, seen)) => seen <= clock && ReattachRowsOk(ths, rows, seen, clock)
    case Some(Looping(rows, now, _)) => now <= clock && ReattachRowsOk(ths, rows, now, clock)
  }

  ghost predicate HookOk(ks: map<ContainerID, Container>, finished: set<JobID>, h: HookCall) {
    && h.containerID in ks
    && ks[h.containerID].supervisor == Gone
    && ks[h.containerID].spec.jobID == h.row.id
    && h.row.IsTerminal() && h.row.id in finished && h.url != ""
  }

  ghost predicate HooksOk(ks: map<ContainerID, Container>, finished: set<JobID>, hooks: seq<HookCall>) {
    && (forall i :: 0 <= i < |hooks| ==> HookOk(ks, finished, hooks[i]))
    && (forall i, j :: 0 <= i < j < |hooks| ==> hooks[i].containerID != hooks[j].containerID)
  }

  ghost predicate Structure(c: Config, s: State) {
    && JobsOk(c, s.jobs, s.enqueues, s.clock, s.finished)
    && ContainersOk(s.enqueues, s.containers, s.clock, s.finished)
    && StartsOk(s.enqueues, s.containers)
    && CancelsOk(s.enqueues, s.cancels, s.clock)
    && ReattachOk(s.enqueues, s.reattach, s.clock)
    && HooksOk(s.containers, s.finished, s.hooks)
  }

  // ---- what only grows ----

  ghost predicate ThreadGrows(th: EnqueueThread, th': EnqueueThread) {
    && th'.row == th.row && th'.input == th.input
    && (th.container.Some? ==> th'.container == th.container)
    && (th.pc.Ended? ==> th' == th)
  }

  ghost predicate ThreadsGrow(ths: Threads, ths': Threads) {
    forall id :: id in ths ==> id in ths' && ThreadGrows(ths[id], ths'[id])
  }

  lemma CopyStaysOk(ths: Threads, ths': Threads, r: JobRow, seen: Time, clock: Time, clock': Time)
    requires ThreadsGrow(ths, ths') && clock <= clock' && CopyOk(ths, r, seen, clock)
    ensures CopyOk(ths', r, seen, clock')
  {
  }

  lemma ContainersStayOk(ths: Threads, ths': Threads, ks: map<ContainerID, Container>, clock: Time, clock': Time,
                         finished: set<JobID>, finished': set<JobID>)
    requires ThreadsGrow(ths, ths') && clock <= clock' && finished <= finished'
    requires ContainersOk(ths, ks, clock, finished)
    ensures ContainersOk(ths', ks, clock', finished')
  {
    forall cid | cid in ks ensures ContainerOk(ths', cid, ks[cid], clock', finished') {
      assert ContainerOk(ths, cid, ks[cid], clock, finished);
      if ks[cid].supervisor.Saving? {
        CopyStaysOk(ths, ths', ks[cid].supervisor.copy, ks[cid].supervisor.seen, clock, clock');
      }
    }
  }

  lemma CopiesStayOk(ths: Threads, ths': Threads, cancels: map<nat, CancelThread>, t: Option<ReattachThread>,
                     clock: Time, clock': Time)
    requires ThreadsGrow(ths, ths') && clock <= clock'
    requires CancelsOk(ths, cancels, clock) && ReattachOk(ths, t, clock)
    ensures CancelsOk(ths', cancels, clock') && ReattachOk(ths', t, clock')
  {
    forall tid | tid in cancels ensures CopyOk(ths', cancels[tid].copy, cancels[tid].seen, clock') {
      CopyStaysOk(ths, ths', cancels[tid].copy, cancels[tid].seen, clock, clock');
    }
    if t.Some? {
      var seen := if t.value.Listed? then t.value.seen else t.value.now;
      forall i | 0 <= i < |t.value.rows| ensures CopyOk(ths', t.value.rows[i], seen, clock') {
        CopyStaysOk(ths, ths', t.value.rows[i], seen, clock, clock');
      }
    }
  }

  // ---- edits of one component ----

  lemma JobsStayOk(c: Config, jobs: map<JobID, JobRow>, jobs': map<JobID, JobRow>, ths: Threads, ths': Threads,
                   clock: Time, finished: set<JobID>, finished': set<JobID>, id: JobID)
    requires JobsOk(c, jobs, ths, clock, finished) && finished <= finished'
    requires id in jobs' && id in ths' && RowThreadOk(c, id, jobs'[id], ths'[id], clock, id in finished')
    requires jobs' == jobs[id := jobs'[id]] && ths' == ths[id := ths'[id]]
    ensures JobsOk(c, jobs', ths', clock, finished')
  {
    assert jobs'.Keys == jobs.Keys + {id} && ths'.Keys == ths.Keys + {id};
    forall i | i in jobs' && i != id ensures RowThreadOk(c, i, jobs'[i], ths'[i], clock, i in finished') {
      assert RowThreadOk(c, i, jobs[i], ths[i], clock, i in finished);
    }
  }

  lemma SetContainerKeeps(ths: Threads, ks: map<ContainerID, Container>, cid: ContainerID, k: Container,
                          clock: Time, finished: set<JobID>)
    requires cid in ks && k.spec == ks[cid].spec
    requires ContainersOk(ths, ks, clock, finished) && StartsOk(ths, ks)
    requires SupervisorOk(ths, k.spec.jobID, k.supervisor, clock, finished)
    ensures ContainersOk(ths, ks[cid := k], clock, finished) && StartsOk(ths, ks[cid := k])
  {
    assert ContainerOk(ths, cid, ks[cid], clock, finished);
    var ks' := ks[cid := k];
    forall x | x in ks' ensures ContainerOk(ths, x, ks'[x], clock, finished) {
      if x != cid {
        assert ContainerOk(ths, x, ks[x], clock, finished);
      }
    }
  }

  /** Hooks stay accounted for when supervisors that are gone stay gone and jobs stay finished. */
  lemma HooksStayOk(ks: map<ContainerID, Container>, ks': map<ContainerID, Container>,
                    finished: set<JobID>, finished': set<JobID>, hooks: seq<HookCall>)
    requires HooksOk(ks, finished, hooks) && finished <= finished'
    requires forall cid :: cid in ks && ks[cid].supervisor == Gone ==>
               cid in ks' && ks'[cid].supervisor == Gone && ks'[cid].spec == ks[cid].spec
    ensures HooksOk(ks', finished', hooks)
  {
    forall i | 0 <= i < |hooks| ensures HookOk(ks', finished', hooks[i]) {
      assert HookOk(ks, finished, hooks[i]);
    }
  }

  // ---- each kind of edit keeps the structure ----

  lemma SetThreadKeeps(c: Config, s: State, id: JobID, th: EnqueueThread)
    requires Structure(c, s) && id in s.jobs
    requires ThreadGrows(s.enqueues[id], th) && th.container == s.enqueues[id].container
    requires RowThreadOk(c, id, s.jobs[id], th, s.clock, id in s.finished)
    ensures Structure(c, SetThread(s, id, th))
  {
    hide ContainersOk, StartsOk, CancelsOk, ReattachOk, HooksOk, RowThreadOk;
    var ths' := s.enqueues[id := th];
    GrowOne(s.enqueues, id, th);
    JobsStayOk(c, s.jobs, s.jobs, s.enqueues, ths', s.clock, s.finished, s.finished, id);
    ContainersStayOk(s.enqueues, ths', s.containers, s.clock, s.clock, s.finished, s.finished);
    CopiesStayOk(s.enqueues, ths', s.cancels, s.reattach, s.clock, s.clock);
    StartsStayOk(s.enqueues, s.containers, id, th);
  }

  lemma UpdateKeeps(c: Config, s: State, row: JobRow)
    requires Structure(c, s) && row.id in s.jobs
    requires RowThreadOk(c, row.id, row, s.enqueues[row.id], s.clock, row.IsTerminal() || row.id in s.finished)
    ensures Structure(c, Update(s, row))
  {
    hide ContainersOk, StartsOk, CancelsOk, ReattachOk, HooksOk, RowThreadOk;
    var s' := Update(s, row);
    assert s.enqueues == s.enqueues[row.id := s.enqueues[row.id]];
    JobsStayOk(c, s.jobs, s'.jobs, s.enqueues, s.enqueues, s.clock, s.finished, s'.finished, row.id);
    ContainersStayOk(s.enqueues, s.enqueues, s.containers, s.clock, s.clock, s.finished, s'.finished);
    HooksStayOk(s.containers, s.containers, s.finished, s'.finished, s.hooks);
  }

  lemma SetSupervisorKeeps(c: Config, s: State, cid: ContainerID, v: Supervisor)
    requires Structure(c, s) && cid in s.containers
    requires SupervisorOk(s.enqueues, s.containers[cid].spec.jobID, v, s.clock, s.finished)
    requires s.containers[cid].supervisor == Gone ==> v == Gone
    ensures Structure(c, SetSupervisor(s, cid, v))
  {
    hide JobsOk, ContainersOk, StartsOk, CancelsOk, ReattachOk, HooksOk, SupervisorOk;
    var s' := SetSupervisor(s, cid, v);
    SetContainerKeeps(s.enqueues, s.containers, cid, s'.containers[cid], s.clock, s.finished);
    HooksStayOk(s.containers, s'.containers, s.finished, s.finished, s.hooks);
  }

  lemma KillKeeps(c: Config, s: State, cid: ContainerID)
    requires Structure(c, s)
    ensures Structure(c, Kill(s, cid))
  {
    hide JobsOk, StartsOk, CancelsOk, ReattachOk, HooksOk, SupervisorOk;
    if cid in s.containers {
      assert ContainerOk(s.enqueues, cid, s.containers[cid], s.clock, s.finished);
      var s' := Kill(s, cid);
      SetContainerKeeps(s.enqueues, s.containers, cid, s'.containers[cid], s.clock, s.finished);
      HooksStayOk(s.containers, s'.containers, s.finished, s.finished, s.hooks);
    }
  }

  lemma NewThreadOk(c: Config, input: EnqueueInput, id: JobID, now: Time, clock: Time, fin: bool)
    requires now <= clock && id != "" && input.Valid()
    ensures var row := RowFor(c, id, input, now);
            RowThreadOk(c, id, row, EnqueueThread(CountingUser, input, row, clock, false, false, None), clock, fin)
  {
  }

  lemma AddOne(ths: Threads, id: JobID, th: EnqueueThread, ks: map<ContainerID, Container>)
    requires id !in ths && th.container.None?
    ensures ThreadsGrow(ths, ths[id := th])
    ensures StartsOk(ths, ks) ==> StartsOk(ths[id := th], ks)
  {
  }

  lemma CreateKeeps(c: Config, s: State, input: EnqueueInput, id: JobID, now: Time)
    requires Structure(c, s) && now <= s.clock && id != "" && input.Valid()
    ensures Structure(c, DoCreate(c, s, input, id, now))
  {
    hide ContainersOk, StartsOk, CancelsOk, ReattachOk, HooksOk, RowThreadOk, RowFor;
    if id !in s.jobs {
      var s' := DoCreate(c, s, input, id, now);
      NewThreadOk(c, input, id, now, s.clock, id in s.finished);
      AddOne(s.enqueues, id, s'.enqueues[id], s.containers);
      JobsStayOk(c, s.jobs, s'.jobs, s.enqueues, s'.enqueues, s.clock, s.finished, s.finished, id);
      ContainersStayOk(s.enqueues, s'.enqueues, s.containers, s.clock, s.clock, s.finished, s.finished);
      CopiesStayOk(s.enqueues, s'.enqueues, s.cancels, s.reattach, s.clock, s.clock);
    }
  }

  lemma StartedThreadOk(c: Config, id: JobID, r: JobRow, th: EnqueueThread, cid: ContainerID, clock: Time, fin: bool)
    requires RowThreadOk(c, id, r, th, clock, fin) && th.pc == Starting
    ensures th.container.None?
    ensures RowThreadOk(c, id, r, th.(seen := clock, pc := SavingRunning, container := Some(cid)), clock, fin)
  {
  }

  lemma StartContainerKeeps(c: Config, s: State, id: JobID, cid: ContainerID)
    requires Structure(c, s) && id in s.enqueues && s.enqueues[id].pc == Starting && cid !in s.containers
    ensures Structure(c, DoStartContainer(s, id, cid))
  {
    hide ContainersOk, StartsOk, CancelsOk, ReattachOk, HooksOk, RowThreadOk;
    var th := s.enqueues[id];
    var th' := th.(seen := s.clock, pc := SavingRunning, container := Some(cid));
    var ths' := s.enqueues[id := th'];
    var k := Container(SpecFor(id, th.input), true, Waiting);
    StartedThreadOk(c, id, s.jobs[id], th, cid, s.clock, id in s.finished);
    GrowOne(s.enqueues, id, th');
    JobsStayOk(c, s.jobs, s.jobs, s.enqueues, ths', s.clock, s.finished, s.finished, id);
    NewContainerKeeps(s.enqueues, ths', s.containers, id, cid, k, s.clock, s.finished);
    CopiesStayOk(s.enqueues, ths', s.cancels, s.reattach, s.clock, s.clock);
    HooksStayOk(s.containers, s.containers[cid := k], s.finished, s.finished, s.hooks);
  }

  lemma StartsStayOk(ths: Threads, ks: map<ContainerID, Container>, id: JobID, th: EnqueueThread)
    requires StartsOk(ths, ks) && id in ths && th.container == ths[id].container
    ensures StartsOk(ths[id := th], ks)
  {
  }

  lemma GrowOne(ths: Threads, id: JobID, th: EnqueueThread)
    requires id in ths && ThreadGrows(ths[id], th)
    ensures ThreadsGrow(ths, ths[id := th])
  {
  }

  lemma NewContainerKeeps(ths: Threads, ths': Threads, ks: map<ContainerID, Container>, id: JobID, cid: ContainerID,
                          k: Container, clock: Time, finished: set<JobID>)
    requires ContainersOk(ths, ks, clock, finished) && StartsOk(ths, ks)
    requires id in ths && id in ths' && cid !in ks && ths' == ths[id := ths'[id]] && ThreadGrows(ths[id], ths'[id])
    requires ths'[id].container == Some(cid) && k == Container(SpecFor(id, ths[id].input), true, Waiting)
    ensures ContainersOk(ths', ks[cid := k], clock, finished) && StartsOk(ths', ks[cid := k])
  {
    ContainersStayOk(ths, ths', ks, clock, clock, finished, finished);
  }

  lemma NotifyKeeps(c: Config, s: State, cid: ContainerID)
    requires Structure(c, s) && cid in s.containers && s.containers[cid].supervisor.Notifying?
    ensures Structure(c, DoNotify(s, cid))
  {
    hide JobsOk, ContainersOk, StartsOk, CancelsOk, ReattachOk, HooksOk;
    var v := s.containers[cid].supervisor;
    SetSupervisorKeeps(c, s, cid, Gone);
    NewHookKeeps(s.enqueues, s.containers, cid, s.clock, s.finished, s.hooks);
  }

  lemma NewHookKeeps(ths: Threads, ks: map<ContainerID, Container>, cid: ContainerID, clock: Time,
                     finished: set<JobID>, hooks: seq<HookCall>)
    requires ContainersOk(ths, ks, clock, finished) && HooksOk(ks, finished, hooks)
    requires cid in ks && ks[cid].supervisor.Notifying?
    ensures HooksOk(ks[cid := ks[cid].(supervisor := Gone)], finished,
                    hooks + [HookCall(cid, ks[cid].supervisor.row, ks[cid].supervisor.url, ks[cid].supervisor.logTail)])
  {
    var ks' := ks[cid := ks[cid].(supervisor := Gone)];
    var hooks' := hooks + [HookCall(cid, ks[cid].supervisor.row, ks[cid].supervisor.url, ks[cid].supervisor.logTail)];
    assert ContainerOk(ths, cid, ks[cid], clock, finished);
    HooksStayOk(ks, ks', finished, finished, hooks);
    forall i | 0 <= i < |hooks'|
      ensures HookOk(ks', finished, hooks'[i]) && (i < |hooks| ==> hooks'[i].containerID != cid)
    {
      if i < |hooks| {
        assert HookOk(ks, finished, hooks[i]) && HookOk(ks', finished, hooks[i]);
      }
    }
  }

  lemma RestartKeeps(c: Config, s: State)
    requires Structure(c, s)
    ensures Structure(c, DoRestart(s))
  {
    hide JobsOk, ContainersOk, StartsOk, HooksOk;
    var s' := DoRestart(s);
    RestartJobs(c, s.jobs, s.enqueues, s'.enqueues, s.clock, s.finished);
    RestartContainers(s.enqueues, s'.enqueues, s.containers, s'.containers, s.clock, s.finished);
    HooksStayOk(s.containers, s'.containers, s.finished, s.finished, s.hooks);
  }

  lemma RestartJobs(c: Config, jobs: map<JobID, JobRow>, ths: Threads, ths': Threads, clock: Time, finished: set<JobID>)
    requires JobsOk(c, jobs, ths, clock, finished)
    requires ths' == map id | id in ths :: KillThread(ths[id])
    ensures JobsOk(c, jobs, ths', clock, finished)
  {
    forall id | id in jobs ensures RowThreadOk(c, id, jobs[id], ths'[id], clock, id in finished) {
      assert RowThreadOk(c, id, jobs[id], ths[id], clock, id in finished);
    }
  }

  lemma RestartContainers(ths: Threads, ths': Threads, ks: map<ContainerID, Container>,
                          ks': map<ContainerID, Container>, clock: Time, finished: set<JobID>)
    requires ContainersOk(ths, ks, clock, finished) && StartsOk(ths, ks)
    requires ths' == map id | id in ths :: KillThread(ths[id])
    requires ks' == map cid | cid in ks :: ks[cid].(supervisor := Gone)
    ensures ContainersOk(ths', ks', clock, finished) && StartsOk(ths', ks')
  {
    forall cid | cid in ks' ensures ContainerOk(ths', cid, ks'[cid], clock, finished) {
      assert ContainerOk(ths, cid, ks[cid], clock, finished);
    }
  }

  lemma JobsTick(c: Config, jobs: map<JobID, JobRow>, ths: Threads, clock: Time, clock': Time, finished: set<JobID>)
    requires JobsOk(c, jobs, ths, clock, finished) && clock <= clock'
    ensures JobsOk(c, jobs, ths, clock', finished)
  {
    forall id | id in jobs ensures RowThreadOk(c, id, jobs[id], ths[id], clock', id in finished) {
      assert RowThreadOk(c, id, jobs[id], ths[id], clock, id in finished);
    }
  }

  lemma TickKeeps(c: Config, s: State, elapsed: nat)
    requires Structure(c, s)
    ensures Structure(c, s.(clock := s.clock + elapsed))
  {
    hide JobsOk, ContainersOk, StartsOk, CancelsOk, ReattachOk, HooksOk;
    JobsTick(c, s.jobs, s.enqueues, s.clock, s.clock + elapsed, s.finished);
    ContainersStayOk(s.enqueues, s.enqueues, s.containers, s.clock, s.clock + elapsed, s.finished, s.finished);
    CopiesStayOk(s.enqueues, s.enqueues, s.cancels, s.reattach, s.clock, s.clock + elapsed);
  }
  // ---- each step keeps the structure ----

  ghost predicate IsEnqueueStep(a: Step) {
    || a.Create? || a.CountUser? || a.CountGlobal? || a.FetchCreds?
    || a.StartContainer? || a.StartFails? || a.SaveFailed? || a.SaveRunning?
  }

  ghost predicate IsSupervisorStep(a: Step) {
    a.ContainerExits? || a.Report? || a.SaveCompletion? || a.Notify?
  }

  ghost predicate IsFinisherStep(a: Step) {
    || a.CancelRead? || a.CancelStop? || a.CancelSave?
    || a.ReattachList? || a.ReattachClock? || a.ReattachInspect? || a.ReattachSave?
  }

  /** Overwriting a row with the terminal version of an older copy of it. */
  lemma OverwriteOk(c: Config, id: JobID, r: JobRow, ths: Threads, copy: JobRow, seen: Time, x: Transition,
                    now: Time, clock: Time, fin: bool)
    requires CopyOk(ths, copy, seen, clock) && copy.id == id
    requires RowThreadOk(c, id, r, ths[id], clock, fin)
    requires seen <= now <= clock && !x.ToRunning? && Apply(copy, x, now).Ok?
    requires x.ToCancelled? || ths[id].container.Some?
    ensures Granted(copy, x, now).IsTerminal() && Granted(copy, x, now).id == id
    ensures RowThreadOk(c, id, Granted(copy, x, now), ths[id], clock, true)
  {
  }

  /** The thread edits that leave the stored row and the container alone. */
  lemma MoveThreadOk(c: Config, s: State, id: JobID, th: EnqueueThread)
    requires Structure(c, s) && id in s.enqueues && !s.enqueues[id].pc.Ended?
    requires ThreadOk(c, id, th, s.clock) && th.row == s.enqueues[id].row && th.input == s.enqueues[id].input
    requires th.container == s.enqueues[id].container
    ensures Structure(c, SetThread(s, id, th))
  {
    hide ContainersOk, StartsOk, CancelsOk, ReattachOk, HooksOk;
    assert RowThreadOk(c, id, s.jobs[id], s.enqueues[id], s.clock, id in s.finished);
    SetThreadKeeps(c, s, id, th);
  }

  lemma ThreadIsOk(c: Config, s: State, id: JobID)
    requires JobsOk(c, s.jobs, s.enqueues, s.clock, s.finished) && id in s.enqueues
    ensures id in s.jobs && RowThreadOk(c, id, s.jobs[id], s.enqueues[id], s.clock, id in s.finished)
  {
  }

  lemma JobsAreFiled(c: Config, s: State, id: JobID)
    requires JobsOk(c, s.jobs, s.enqueues, s.clock, s.finished) && id in s.jobs
    ensures s.jobs[id].id == id && id != "" && s.jobs[id].userID != "" && s.jobs[id].StampedBy(s.clock)
    ensures s.jobs[id].IsTerminal() ==> s.jobs[id].finishedAt.Some? && s.jobs[id].finishedAt.value <= s.clock
  {
    ThreadIsOk(c, s, id);
  }

  /** A row is filed under its own id, belongs to somebody, and carries no time still to come. */
  lemma FiledUnderItsId(c: Config, s: State, id: JobID)
    requires Structure(c, s) && id in s.jobs
    ensures s.jobs[id].id == id && id != "" && s.jobs[id].userID != "" && s.jobs[id].StampedBy(s.clock)
    ensures s.jobs[id].IsTerminal() ==> s.jobs[id].finishedAt.Some? && s.jobs[id].finishedAt.value <= s.clock
  {
    hide JobsOk, ContainersOk, StartsOk, CancelsOk, ReattachOk, HooksOk;
    JobsAreFiled(c, s, id);
  }

  /** The request's own write: failed after a failed start, running after a good one. */
  lemma OwnWriteOk(c: Config, id: JobID, r: JobRow, th: EnqueueThread, now: Time, clock: Time, fin: bool)
    requires RowThreadOk(c, id, r, th, clock, fin) && th.seen <= now <= clock
    ensures th.pc.SavingFailed? ==>
              var row := Granted(th.row, ToFailed(th.pc.reason), now);
              row.id == id && row.status == Failed
                  && RowThreadOk(c, id, row, th.(pc := Ended(StartFailed)), clock, true)
    ensures th.pc == SavingRunning ==> th.container.Some?
    ensures th.pc == SavingRunning ==>
              var row := Granted(th.row, ToRunning(th.container.value), now);
              row.id == id && row.status == Running && RowThreadOk(c, id, row, th.(pc := Ended(Persisted)), clock, fin)
  {
  }

  lemma SaveFailedKeeps(c: Config, s: State, id: JobID, now: Time, ok: bool)
    requires Structure(c, s) && id in s.enqueues && s.enqueues[id].pc.SavingFailed?
             && Between(s.enqueues[id].seen, now, s)
    ensures Structure(c, DoSaveFailed(s, id, now, ok))
  {
    hide JobsOk, ContainersOk, StartsOk, CancelsOk, ReattachOk, HooksOk;
    var th := s.enqueues[id];
    var th' := th.(pc := Ended(StartFailed));
    ThreadIsOk(c, s, id);
    OwnWriteOk(c, id, s.jobs[id], th, now, s.clock, id in s.finished);
    MoveThreadOk(c, s, id, th');
    if ok {
      UpdateKeeps(c, SetThread(s, id, th'), Granted(th.row, ToFailed(th.pc.reason), now));
    }
  }

  lemma SaveRunningKeeps(c: Config, s: State, id: JobID, now: Time, ok: bool)
    requires Structure(c, s) && AtPc(s, id, SavingRunning) && Between(s.enqueues[id].seen, now, s)
    ensures Structure(c, DoSaveRunning(s, id, now, ok))
  {
    hide JobsOk, ContainersOk, StartsOk, CancelsOk, ReattachOk, HooksOk;
    var th := s.enqueues[id];
    ThreadIsOk(c, s, id);
    OwnWriteOk(c, id, s.jobs[id], th, now, s.clock, id in s.finished);
    if ok {
      var th' := th.(pc := Ended(Persisted));
      MoveThreadOk(c, s, id, th');
      UpdateKeeps(c, SetThread(s, id, th'), Granted(th.row, ToRunning(th.container.value), now));
    } else {
      MoveThreadOk(c, s, id, th.(pc := Ended(Unpersisted)));
    }
  }

  lemma CountedOk(c: Config, id: JobID, th: EnqueueThread, n: nat, ok: bool, clock: Time)
    requires ThreadOk(c, id, th, clock)
    ensures th.pc == CountingUser ==> ThreadOk(c, id, UserCounted(c, th.(seen := clock), n, ok), clock)
    ensures th.pc == CountingGlobal ==> ThreadOk(c, id, GlobalCounted(c, th.(seen := clock), n, ok), clock)
  {
  }

  lemma CountUserKeeps(c: Config, s: State, id: JobID, ok: bool)
    requires Structure(c, s) && AtPc(s, id, CountingUser)
    ensures Structure(c, DoCountUser(c, s, id, ok))
  {
    hide JobsOk, ContainersOk, StartsOk, CancelsOk, ReattachOk, HooksOk;
    var th, n := s.enqueues[id], |ActiveFor(s.jobs, s.enqueues[id].input.userID)|;
    ThreadIsOk(c, s, id);
    CountedOk(c, id, th, n, ok, s.clock);
    MoveThreadOk(c, s, id, UserCounted(c, th.(seen := s.clock), n, ok));
  }

  lemma CountGlobalKeeps(c: Config, s: State, id: JobID, ok: bool)
    requires Structure(c, s) && AtPc(s, id, CountingGlobal)
    ensures Structure(c, DoCountGlobal(c, s, id, ok))
  {
    hide JobsOk, ContainersOk, StartsOk, CancelsOk, ReattachOk, HooksOk;
    var th, n := s.enqueues[id], |ActiveAll(s.jobs)|;
    ThreadIsOk(c, s, id);
    CountedOk(c, id, th, n, ok, s.clock);
    MoveThreadOk(c, s, id, GlobalCounted(c, th.(seen := s.clock), n, ok));
  }

  lemma FetchCredsKeeps(c: Config, s: State, id: JobID, ok: bool)
    requires Structure(c, s) && AtPc(s, id, FetchingCreds)
    ensures Structure(c, DoFetchCreds(s, id, ok))
  {
    hide JobsOk, ContainersOk, StartsOk, CancelsOk, ReattachOk, HooksOk;
    ThreadIsOk(c, s, id);
    MoveThreadOk(c, s, id, DoFetchCreds(s, id, ok).enqueues[id]);
  }

  lemma StartFailsKeeps(c: Config, s: State, id: JobID, reason: string)
    requires Structure(c, s) && AtPc(s, id, Starting)
    ensures Structure(c, DoStartFails(s, id, reason))
  {
    hide JobsOk, ContainersOk, StartsOk, CancelsOk, ReattachOk, HooksOk;
    ThreadIsOk(c, s, id);
    MoveThreadOk(c, s, id, s.enqueues[id].(pc := SavingFailed(reason), seen := s.clock));
  }

  /** A fresh read of an active row is a good copy. */
  lemma FreshCopyOk(c: Config, s: State, id: JobID)
    requires Structure(c, s) && id in s.jobs && s.jobs[id].IsActive()
    ensures CopyOk(s.enqueues, s.jobs[id], s.clock, s.clock) && s.jobs[id].id == id
  {
    ThreadIsOk(c, s, id);
  }

  lemma CancelReadKeeps(c: Config, s: State, tid: nat, id: JobID, u: UserID)
    requires Structure(c, s)
    ensures Structure(c, DoCancelRead(s, tid, id, u))
  {
    hide JobsOk, ContainersOk, StartsOk, ReattachOk, HooksOk;
    if id in s.jobs && s.jobs[id].IsActive() {
      FreshCopyOk(c, s, id);
    }
  }

  lemma CancelStopKeeps(c: Config, s: State, tid: nat, ok: bool)
    requires Structure(c, s) && tid in s.cancels
    ensures Structure(c, DoCancelStop(s, tid, ok))
  {
    hide JobsOk, ContainersOk, StartsOk, ReattachOk, HooksOk;
    KillKeeps(c, s, s.cancels[tid].copy.containerID);
  }

  lemma CancelSaveKeeps(c: Config, s: State, tid: nat, now: Time, ok: bool)
    requires Structure(c, s) && tid in s.cancels && Between(s.cancels[tid].seen, now, s)
    ensures Structure(c, DoCancelSave(s, tid, now, ok))
  {
    hide JobsOk, ContainersOk, StartsOk, ReattachOk, HooksOk, RowThreadOk;
    var th := s.cancels[tid];
    var s' := s.(cancels := s.cancels - {tid});
    assert Structure(c, s');
    if ok {
      ThreadIsOk(c, s, th.copy.id);
      OverwriteOk(c, th.copy.id, s.jobs[th.copy.id], s.enqueues, th.copy, th.seen, ToCancelled, now, s.clock,
          th.copy.id in s.finished);
      UpdateKeeps(c, s', Granted(th.copy, ToCancelled, now));
    }
  }

  lemma ReceivedIsOk(c: Config, s: State, res: RunnerResult)
    requires JobsOk(c, s.jobs, s.enqueues, s.clock, s.finished)
    ensures SupervisorOk(s.enqueues, res.jobID, Received(s.jobs, res, s.clock), s.clock, s.finished)
  {
    if res.jobID in s.jobs {
      ThreadIsOk(c, s, res.jobID);
    }
  }

  lemma ReportKeeps(c: Config, s: State, cid: ContainerID, res: RunnerResult)
    requires Structure(c, s) && cid in s.containers && s.containers[cid].supervisor == Waiting
    requires res.jobID == s.containers[cid].spec.jobID
    ensures Structure(c, DoReport(s, cid, res))
  {
    hide JobsOk, ContainersOk, StartsOk, CancelsOk, ReattachOk, HooksOk;
    ReceivedIsOk(c, s, res);
    SetSupervisorKeeps(c, s, cid, Received(s.jobs, res, s.clock));
  }

  lemma SavingIsOk(c: Config, s: State, cid: ContainerID)
    requires Structure(c, s) && cid in s.containers && s.containers[cid].supervisor.Saving?
    ensures var v := s.containers[cid].supervisor;
            && CopyOk(s.enqueues, v.copy, v.seen, s.clock)
            && v.copy.id == s.containers[cid].spec.jobID && v.copy.id in s.enqueues
            && s.enqueues[v.copy.id].container.Some?
            && forall now :: Apply(v.copy, Verdict(v.res), now).Ok?
  {
    hide JobsOk, StartsOk, CancelsOk, ReattachOk, HooksOk;
    assert ContainerOk(s.enqueues, cid, s.containers[cid], s.clock, s.finished);
  }

  lemma SaveCompletionKeeps(c: Config, s: State, cid: ContainerID, now: Time, ok: bool)
    requires Structure(c, s) && cid in s.containers && s.containers[cid].supervisor.Saving?
    requires Between(s.containers[cid].supervisor.seen, now, s)
    ensures Structure(c, DoSaveCompletion(c, s, cid, now, ok))
  {
    hide JobsOk, ContainersOk, StartsOk, CancelsOk, ReattachOk, HooksOk, RowThreadOk, CopyOk;
    var v := s.containers[cid].supervisor;
    var row := Granted(v.copy, Verdict(v.res), now);
    SavingIsOk(c, s, cid);
    ThreadIsOk(c, s, v.copy.id);
    OverwriteOk(c, v.copy.id, s.jobs[v.copy.id], s.enqueues, v.copy, v.seen, Verdict(v.res), now, s.clock,
        v.copy.id in s.finished);
    UpdateKeeps(c, s, row);
    var s' := if ok then Update(s, row) else s;
    SetSupervisorKeeps(c, s', cid, Gone);
    if ok && v.res.notificationWebhook != "" {
      SetSupervisorKeeps(c, s', cid, Notifying(row, v.res.notificationWebhook, v.res.logTail));
    }
  }

  lemma ReattachListKeeps(c: Config, s: State, ids: seq<JobID>)
    requires Structure(c, s) && ListsRunning(s.jobs, ids)
    ensures Structure(c, DoReattachList(s, ids))
  {
    hide JobsOk, ContainersOk, StartsOk, CancelsOk, HooksOk;
    forall i | 0 <= i < |ids| ensures CopyOk(s.enqueues, s.jobs[ids[i]], s.clock, s.clock) {
      FreshCopyOk(c, s, ids[i]);
    }
  }

  lemma LoopOnKeeps(c: Config, s: State, rows: seq<JobRow>, now: Time)
    requires Structure(c, s) && now <= s.clock && ReattachRowsOk(s.enqueues, rows, now, s.clock)
    ensures Structure(c, LoopOn(s, rows, now))
  {
  }

  lemma ReattachSaveKeeps(c: Config, s: State, ok: bool)
    requires Structure(c, s) && s.reattach.Some? && s.reattach.value.Looping? && s.reattach.value.rows != []
    ensures Structure(c, DoReattachSave(s, ok))
  {
    hide JobsOk, ContainersOk, StartsOk, CancelsOk, HooksOk, RowThreadOk;
    if ok {
      var t := s.reattach.value;
      var head := t.rows[0];
      assert CopyOk(s.enqueues, head, t.now, s.clock);
      ThreadIsOk(c, s, head.id);
      OverwriteOk(c, head.id, s.jobs[head.id], s.enqueues, head, t.now, ToFailed(GONE_REASON), t.now, s.clock,
          head.id in s.finished);
      UpdateKeeps(c, s, Granted(head, ToFailed(GONE_REASON), t.now));
      LoopOnKeeps(c, Update(s, Granted(head, ToFailed(GONE_REASON), t.now)), t.rows[1..], t.now);
    }
  }

  lemma ReattachLookKeeps(c: Config, s: State, ok: bool)
    requires Structure(c, s) && s.reattach.Some?
    ensures s.reattach.value.Listed? ==> Structure(c, LoopOn(s, s.reattach.value.rows, s.clock))
    ensures s.reattach.value.Looping? && s.reattach.value.rows != [] ==> Structure(c, DoReattachInspect(s, ok))
  {
    hide JobsOk, ContainersOk, StartsOk, CancelsOk, HooksOk;
    var t := s.reattach.value;
    if t.Listed? {
      forall i | 0 <= i < |t.rows| ensures CopyOk(s.enqueues, t.rows[i], s.clock, s.clock) {
        assert CopyOk(s.enqueues, t.rows[i], t.seen, s.clock);
      }
      LoopOnKeeps(c, s, t.rows, s.clock);
    } else if t.rows != [] {
      LoopOnKeeps(c, s, t.rows[1..], t.now);
    }
  }

  lemma EnqueueStepKeeps(c: Config, s: State, a: Step)
    requires Structure(c, s) && Enabled(c, s, a)
    requires IsEnqueueStep(a)
    ensures Structure(c, Do(c, s, a))
  {
    hide Structure;
    match a
    case Create(input, id, now) => CreateKeeps(c, s, input, id, now);
    case CountUser(id, ok) => CountUserKeeps(c, s, id, ok);
    case CountGlobal(id, ok) => CountGlobalKeeps(c, s, id, ok);
    case FetchCreds(id, ok) => FetchCredsKeeps(c, s, id, ok);
    case StartContainer(id, cid) => StartContainerKeeps(c, s, id, cid);
    case StartFails(id, reason) => StartFailsKeeps(c, s, id, reason);
    case SaveFailed(id, now, ok) => SaveFailedKeeps(c, s, id, now, ok);
    case SaveRunning(id, now, ok) => SaveRunningKeeps(c, s, id, now, ok);
  }

  lemma SupervisorStepKeeps(c: Config, s: State, a: Step)
    requires Structure(c, s) && Enabled(c, s, a)
    requires IsSupervisorStep(a)
    ensures Structure(c, Do(c, s, a))
  {
    hide Structure;
    match a
    case ContainerExits(cid) => KillKeeps(c, s, cid);
    case Report(cid, res) => ReportKeeps(c, s, cid, res);
    case SaveCompletion(cid, now, ok) => SaveCompletionKeeps(c, s, cid, now, ok);
    case Notify(cid) => NotifyKeeps(c, s, cid);
  }

  lemma FinisherStepKeeps(c: Config, s: State, a: Step)
    requires Structure(c, s) && Enabled(c, s, a)
    requires IsFinisherStep(a)
    ensures Structure(c, Do(c, s, a))
  {
    hide Structure;
    match a
    case CancelRead(tid, id, u) => CancelReadKeeps(c, s, tid, id, u);
    case CancelStop(tid, ok) => CancelStopKeeps(c, s, tid, ok);
    case CancelSave(tid, now, ok) => CancelSaveKeeps(c, s, tid, now, ok);
    case ReattachList(ids) => ReattachListKeeps(c, s, ids);
    case ReattachClock => ReattachLookKeeps(c, s, true);
    case ReattachInspect(ok) => ReattachLookKeeps(c, s, ok);
    case ReattachSave(ok) => ReattachSaveKeeps(c, s, ok);
  }

  /** Every step keeps the structure, whatever else is in flight. */
  lemma StepKeepsStructure(c: Config, s: State, a: Step)
    requires Structure(c, s) && Enabled(c, s, a)
    ensures Structure(c, Do(c, s, a))
  {
    hide Structure;
    if IsSupervisorStep(a) {
      SupervisorStepKeeps(c, s, a);
    } else if IsFinisherStep(a) {
      FinisherStepKeeps(c, s, a);
    } else if a.Restart? {
      RestartKeeps(c, s);
    } else if a.Tick? {
      TickKeeps(c, s, a.elapsed);
    } else {
      EnqueueStepKeeps(c, s, a);
    }
  }

  lemma {:induction false} RunKeepsStructure(c: Config, s: State, steps: seq<Step>)
    requires Structure(c, s) && ValidRun(c, s, steps)
    ensures Structure(c, After(c, s, steps))
    decreases |steps|
  {
    hide Structure;
    if steps != [] {
      StepKeepsStructure(c, s, steps[0]);
      RunKeepsStructure(c, Do(c, s, steps[0]), steps[1..]);
    }
  }
}
