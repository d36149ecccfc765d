/** The job lifecycle as a step system. Enqueue requests, cancel requests, container
    supervisors, startup recovery and process restarts interleave freely; one step is one
    repository or runner call together with the local work up to the next call. A clock read
    that lies between two calls is a time between the clock at the one and at the other. */
module JobProtocol {
  import opened Wrappers
  import opened JobDomain

  /** A cap that is not positive means "unlimited". */
  datatype Config = Config(maxPerUser: int, maxGlobal: int, logDir: string, webhookWired: bool)

  datatype EnqueueInput = EnqueueInput(
    userID: UserID, repo: string, baseBranch: string, workBranch: string,
    spec: SpecSource, modelOverride: string, logPath: string)
  {
    predicate Valid() {
      userID != "" && repo != "" && baseBranch != "" && workBranch != "" && spec.Valid()
    }
  }

  datatype StartSpec = StartSpec(
    jobID: JobID, repo: string, baseBranch: string, workBranch: string,
    spec: SpecSource, model: string, logPath: string)

  datatype RunnerResult = RunnerResult(
    jobID: JobID, exitCode: int, prURL: string, error: string,
    notificationWebhook: string, logTail: string)

  // ---- values the use cases compute ----

  function LogPathFor(c: Config, id: JobID, input: EnqueueInput): string {
    if input.logPath != "" then input.logPath
    else if c.logDir == "" then id + ".log"
    else c.logDir + "/" + id + ".log"
  }

  function RowFor(c: Config, id: JobID, input: EnqueueInput, now: Time): JobRow {
    NewRow(id, input.userID, input.repo, input.baseBranch, input.workBranch,
           input.spec, input.modelOverride, now).(logPath := LogPathFor(c, id, input))
  }

  /** The runner gets the log path of the request, not the one stored in the row. */
  function SpecFor(id: JobID, input: EnqueueInput): StartSpec {
    StartSpec(id, input.repo, input.baseBranch, input.workBranch, input.spec, input.modelOverride, input.logPath)
  }

  const DEFAULT_REASON := "runner exited with non-zero code"
  const GONE_REASON := "api restarted while runner container gone"

  /** The transition a runner report asks for. */
  function Verdict(res: RunnerResult): Transition {
    if res.exitCode == 0 then ToSucceeded(res.prURL)
    else ToFailed(if res.error == "" then DEFAULT_REASON else res.error)
  }

  function Granted(r: JobRow, x: Transition, now: Time): JobRow {
    match Apply(r, x, now) case Ok(r') => r' case Err(_) => r
  }

  function ActiveFor(m: map<JobID, JobRow>, u: UserID): set<JobID> {
    set id | id in m && m[id].userID == u && m[id].IsActive()
  }

  function ActiveAll(m: map<JobID, JobRow>): set<JobID> {
    set id | id in m && m[id].IsActive()
  }

  // ---- state ----

  datatype EnqueueEnd = OverCap | Aborted | StartFailed | Persisted | Unpersisted | Killed

  datatype EnqueuePc =
    | CountingUser
    | CountingGlobal
    | FetchingCreds
    | Starting
    | SavingFailed(reason: string)
    | SavingRunning
    | Ended(how: EnqueueEnd)

  /** One enqueue request after its row was created. `passedUser` and `passedGlobal`
      record that a cap check let it through; `seen` is the clock at its last call. */
  datatype EnqueueThread = EnqueueThread(
    pc: EnqueuePc, input: EnqueueInput, row: JobRow, seen: Time,
    passedUser: bool, passedGlobal: bool, container: Option<ContainerID>)

  /** The goroutine that watches one container and reports its exit. */
  datatype Supervisor =
    | Waiting
    | Saving(copy: JobRow, res: RunnerResult, seen: Time)
    | Notifying(row: JobRow, url: string, logTail: string)
    | Gone

  datatype Container = Container(spec: StartSpec, alive: bool, supervisor: Supervisor)

  datatype CancelThread = CancelThread(copy: JobRow, mustStop: bool, seen: Time)

  datatype ReattachThread =
    | Listed(rows: seq<JobRow>, seen: Time)
    | Looping(rows: seq<JobRow>, now: Time, headIsDead: bool)

  datatype HookCall = HookCall(containerID: ContainerID, row: JobRow, url: string, logTail: string)

  /** `enqueues` is keyed by job: only the request that created a row goes on.
      `finished` remembers every job for which a terminal row was ever stored. */
  datatype State = State(
    jobs: map<JobID, JobRow>,
    enqueues: map<JobID, EnqueueThread>,
    containers: map<ContainerID, Container>,
    cancels: map<nat, CancelThread>,
    reattach: Option<ReattachThread>,
    clock: Time,
    finished: set<JobID>,
    hooks: seq<HookCall>)

  function Init(start: Time): State {
    State(map[], map[], map[], map[], None, start, {}, [])
  }

  datatype Step =
    | Create(input: EnqueueInput, id: JobID, now: Time)
    | CountUser(id: JobID, ok: bool)
    | CountGlobal(id: JobID, ok: bool)
    | FetchCreds(id: JobID, ok: bool)
    | StartContainer(id: JobID, containerID: ContainerID)
    | StartFails(id: JobID, reason: string)
    | SaveFailed(id: JobID, now: Time, ok: bool)
    | SaveRunning(id: JobID, now: Time, ok: bool)
    | CancelRead(tid: nat, id: JobID, userID: UserID)
    | CancelStop(tid: nat, ok: bool)
    | CancelSave(tid: nat, now: Time, ok: bool)
    | ContainerExits(containerID: ContainerID) // by itself, or killed by its supervisor at the deadline
    | Report(containerID: ContainerID, res: RunnerResult)
    | SaveCompletion(containerID: ContainerID, now: Time, ok: bool)
    | Notify(containerID: ContainerID)
    | ReattachList(ids: seq<JobID>)
    | ReattachClock
    | ReattachInspect(ok: bool)
    | ReattachSave(ok: bool)
    | Restart
    | Tick(elapsed: nat)

  predicate AtPc(s: State, id: JobID, pc: EnqueuePc) {
    id in s.enqueues && s.enqueues[id].pc == pc
  }

  predicate Between(seen: Time, now: Time, s: State) {
    seen <= now <= s.clock
  }

  /** ids lists the running rows, each once, in any order. */
  predicate ListsRunning(m: map<JobID, JobRow>, ids: seq<JobID>) {
    && (forall i :: 0 <= i < |ids| ==> ids[i] in m && m[ids[i]].status == Running)
    && (forall id :: id in m && m[id].status == Running ==> id in ids)
    && (forall i, j :: 0 <= i < j < |ids| ==> ids[i] != ids[j])
  }

  predicate Enabled(c: Config, s: State, a: Step) {
    match a
    case Create(input, id, now) => input.Valid() && id != "" && now <= s.clock
    case CountUser(id, ok) => AtPc(s, id, CountingUser) && (ok || c.maxPerUser > 0)
    case CountGlobal(id, ok) => AtPc(s, id, CountingGlobal) && (ok || c.maxGlobal > 0)
    case FetchCreds(id, _) => AtPc(s, id, FetchingCreds)
    case StartContainer(id, cid) => AtPc(s, id, Starting) && cid !in s.containers
    case StartFails(id, _) => AtPc(s, id, Starting)
    case SaveFailed(id, now, _) =>
      id in s.enqueues && s.enqueues[id].pc.SavingFailed? && Between(s.enqueues[id].seen, now, s)
    case SaveRunning(id, now, _) => AtPc(s, id, SavingRunning) && Between(s.enqueues[id].seen, now, s)
    case CancelRead(tid, id, userID) => tid !in s.cancels && id != "" && userID != ""
    case CancelStop(tid, _) => tid in s.cancels && s.cancels[tid].mustStop
    case CancelSave(tid, now, _) =>
      tid in s.cancels && !s.cancels[tid].mustStop && Between(s.cancels[tid].seen, now, s)
    case ContainerExits(cid) => cid in s.containers
    case Report(cid, res) =>
      cid in s.containers && s.containers[cid].supervisor == Waiting && res.jobID == s.containers[cid].spec.jobID
    case SaveCompletion(cid, now, _) =>
      cid in s.containers && s.containers[cid].supervisor.Saving? && Between(s.containers[cid].supervisor.seen, now, s)
    case Notify(cid) => cid in s.containers && s.containers[cid].supervisor.Notifying?
    case ReattachList(ids) => s.reattach.None? && ListsRunning(s.jobs, ids)
    case ReattachClock => s.reattach.Some? && s.reattach.value.Listed?
    case ReattachInspect(_) => s.reattach.Some? && s.reattach.value.Looping?
                               && !s.reattach.value.headIsDead && s.reattach.value.rows != []
    case ReattachSave(_) => s.reattach.Some? && s.reattach.value.Looping?
                            && s.reattach.value.headIsDead && s.reattach.value.rows != []
    case Restart => true
    case Tick(_) => true
  }

  // ---- effects ----

  /** A repository Update: rows are never created by it. */
  function Update(s: State, row: JobRow): State {
    if row.id !in s.jobs then s
    else s.(jobs := s.jobs[row.id := row],
            finished := if row.IsTerminal() then s.finished + {row.id} else s.finished)
  }

  function SetThread(s: State, id: JobID, th: EnqueueThread): State {
    s.(enqueues := s.enqueues[id := th])
  }

  function SetSupervisor(s: State, cid: ContainerID, v: Supervisor): State
    requires cid in s.containers
  {
    s.(containers := s.containers[cid := s.containers[cid].(supervisor := v)])
  }

  function Kill(s: State, cid: ContainerID): State {
    if cid !in s.containers then s
    else s.(containers := s.containers[cid := s.containers[cid].(alive := false)])
  }

  function DoCreate(c: Config, s: State, input: EnqueueInput, id: JobID, now: Time): State {
    if id in s.jobs then s
    else
      var row := RowFor(c, id, input, now);
      s.(jobs := s.jobs[id := row],
         enqueues := s.enqueues[id := EnqueueThread(CountingUser, input, row, s.clock, false, false, None)])
  }

  /** What a request does on learning that n rows of its user are active, its own among them. */
  function UserCounted(c: Config, th: EnqueueThread, n: nat, ok: bool): EnqueueThread {
    if !ok then th.(pc := Ended(Aborted))
    else if c.maxPerUser > 0 && n > c.maxPerUser then th.(pc := Ended(OverCap))
    else th.(pc := CountingGlobal, passedUser := true)
  }

  function GlobalCounted(c: Config, th: EnqueueThread, n: nat, ok: bool): EnqueueThread {
    if !ok then th.(pc := Ended(Aborted))
    else if c.maxGlobal > 0 && n > c.maxGlobal then th.(pc := Ended(OverCap))
    else th.(pc := FetchingCreds, passedGlobal := true)
  }

  function DoCountUser(c: Config, s: State, id: JobID, ok: bool): State
    requires id in s.enqueues
  {
    var th := s.enqueues[id].(seen := s.clock);
    SetThread(s, id, UserCounted(c, th, |ActiveFor(s.jobs, th.input.userID)|, ok))
  }

  function DoCountGlobal(c: Config, s: State, id: JobID, ok: bool): State
    requires id in s.enqueues
  {
    SetThread(s, id, GlobalCounted(c, s.enqueues[id].(seen := s.clock), |ActiveAll(s.jobs)|, ok))
  }

  function DoFetchCreds(s: State, id: JobID, ok: bool): State
    requires id in s.enqueues
  {
    var th := s.enqueues[id].(seen := s.clock);
    SetThread(s, id, th.(pc := if ok then Starting else Ended(Aborted)))
  }

  function DoStartContainer(s: State, id: JobID, cid: ContainerID): State
    requires id in s.enqueues
  {
    var th := s.enqueues[id].(seen := s.clock);
    SetThread(s, id, th.(pc := SavingRunning, container := Some(cid)))
    .(containers := s.containers[cid := Container(SpecFor(id, th.input), true, Waiting)])
  }

  function DoStartFails(s: State, id: JobID, reason: string): State
    requires id in s.enqueues
  {
    SetThread(s, id, s.enqueues[id].(pc := SavingFailed(reason), seen := s.clock))
  }

  function DoSaveFailed(s: State, id: JobID, now: Time, ok: bool): State
    requires id in s.enqueues && s.enqueues[id].pc.SavingFailed?
  {
    var th := s.enqueues[id];
    var s' := SetThread(s, id, th.(pc := Ended(StartFailed)));
    if ok then Update(s', Granted(th.row, ToFailed(th.pc.reason), now)) else s'
  }

  function DoSaveRunning(s: State, id: JobID, now: Time, ok: bool): State
    requires id in s.enqueues
  {
    var th := s.enqueues[id];
    if ok && th.container.Some?
    then Update(SetThread(s, id, th.(pc := Ended(Persisted))), Granted(th.row, ToRunning(th.container.value), now))
    else SetThread(s, id, th.(pc := Ended(Unpersisted)))
  }

  function DoCancelRead(s: State, tid: nat, id: JobID, userID: UserID): State {
    if id !in s.jobs || s.jobs[id].userID != userID || s.jobs[id].IsTerminal() then s
    else s.(cancels := s.cancels[tid := CancelThread(s.jobs[id], s.jobs[id].containerID != "", s.clock)])
  }

  /** A container that cannot be stopped does not keep the cancel from going on. */
  function DoCancelStop(s: State, tid: nat, ok: bool): State
    requires tid in s.cancels
  {
    var th := s.cancels[tid];
    var s' := if ok then Kill(s, th.copy.containerID) else s;
    s'.(cancels := s.cancels[tid := th.(mustStop := false, seen := s.clock)])
  }

  function DoCancelSave(s: State, tid: nat, now: Time, ok: bool): State
    requires tid in s.cancels
  {
    var th := s.cancels[tid];
    var s' := s.(cancels := s.cancels - {tid});
    if ok then Update(s', Granted(th.copy, ToCancelled, now)) else s'
  }

  /** The completion use case up to its Update: an unknown job or a refused transition ends it. */
  function Received(jobs: map<JobID, JobRow>, res: RunnerResult, clock: Time): Supervisor {
    if res.jobID == "" || res.jobID !in jobs || Apply(jobs[res.jobID], Verdict(res), clock).Err? then Gone
    else Saving(jobs[res.jobID], res, clock)
  }

  function DoReport(s: State, cid: ContainerID, res: RunnerResult): State
    requires cid in s.containers
  {
    SetSupervisor(s, cid, Received(s.jobs, res, s.clock))
  }

  function DoSaveCompletion(c: Config, s: State, cid: ContainerID, now: Time, ok: bool): State
    requires cid in s.containers && s.containers[cid].supervisor.Saving?
  {
    var v := s.containers[cid].supervisor;
    var row := Granted(v.copy, Verdict(v.res), now);
    if !ok then SetSupervisor(s, cid, Gone)
    else if c.webhookWired && v.res.notificationWebhook != ""
    then SetSupervisor(Update(s, row), cid, Notifying(row, v.res.notificationWebhook, v.res.logTail))
    else SetSupervisor(Update(s, row), cid, Gone)
  }

  function DoNotify(s: State, cid: ContainerID): State
    requires cid in s.containers && s.containers[cid].supervisor.Notifying?
  {
    var v := s.containers[cid].supervisor;
    SetSupervisor(s, cid, Gone).(hooks := s.hooks + [HookCall(cid, v.row, v.url, v.logTail)])
  }

  function RowsOf(m: map<JobID, JobRow>, ids: seq<JobID>): (rows: seq<JobRow>)
    requires forall i :: 0 <= i < |ids| ==> ids[i] in m
    ensures |rows| == |ids| && forall i :: 0 <= i < |ids| ==> rows[i] == m[ids[i]]
  {
    seq(|ids|, i requires 0 <= i < |ids| => m[ids[i]])
  }

  function DoReattachList(s: State, ids: seq<JobID>): State
    requires ListsRunning(s.jobs, ids)
  {
    s.(reattach := Some(Listed(RowsOf(s.jobs, ids), s.clock)))
  }

  /** The loop with these rows still to look at; it returns when none is left. */
  function LoopOn(s: State, rows: seq<JobRow>, now: Time): State {
    s.(reattach := if rows == [] then None else Some(Looping(rows, now, false)))
  }

  function IsAlive(s: State, cid: ContainerID): bool {
    cid in s.containers && s.containers[cid].alive
  }

  function DoReattachInspect(s: State, ok: bool): State
    requires s.reattach.Some? && s.reattach.value.Looping? && s.reattach.value.rows != []
  {
    var t := s.reattach.value;
    if !ok then s.(reattach := None)
    else if IsAlive(s, t.rows[0].containerID) then LoopOn(s, t.rows[1..], t.now)
    else s.(reattach := Some(t.(headIsDead := true)))
  }

  function DoReattachSave(s: State, ok: bool): State
    requires s.reattach.Some? && s.reattach.value.Looping? && s.reattach.value.rows != []
  {
    var t := s.reattach.value;
    if !ok then s.(reattach := None)
    else LoopOn(Update(s, Granted(t.rows[0], ToFailed(GONE_REASON), t.now)), t.rows[1..], t.now)
  }

  function KillThread(th: EnqueueThread): EnqueueThread {
    if th.pc.Ended? then th else th.(pc := Ended(Killed))
  }

  /** The process dies: rows and containers stay, every thread and every supervisor is lost. */
  function DoRestart(s: State): State {
    s.(enqueues := map id | id in s.enqueues :: KillThread(s.enqueues[id]),
       containers := map cid | cid in s.containers :: s.containers[cid].(supervisor := Gone),
       cancels := map[],
       reattach := None)
  }

  function Do(c: Config, s: State, a: Step): State
    requires Enabled(c, s, a)
  {
    match a
    case Create(input, id, now) => DoCreate(c, s, input, id, now)
    case CountUser(id, ok) => DoCountUser(c, s, id, ok)
    case CountGlobal(id, ok) => DoCountGlobal(c, s, id, ok)
    case FetchCreds(id, ok) => DoFetchCreds(s, id, ok)
    case StartContainer(id, cid) => DoStartContainer(s, id, cid)
    case StartFails(id, reason) => DoStartFails(s, id, reason)
    case SaveFailed(id, now, ok) => DoSaveFailed(s, id, now, ok)
    case SaveRunning(id, now, ok) => DoSaveRunning(s, id, now, ok)
    case CancelRead(tid, id, userID) => DoCancelRead(s, tid, id, userID)
    case CancelStop(tid, ok) => DoCancelStop(s, tid, ok)
    case CancelSave(tid, now, ok) => DoCancelSave(s, tid, now, ok)
    case ContainerExits(cid) => Kill(s, cid)
    case Report(cid, res) => DoReport(s, cid, res)
    case SaveCompletion(cid, now, ok) => DoSaveCompletion(c, s, cid, now, ok)
    case Notify(cid) => DoNotify(s, cid)
    case ReattachList(ids) => DoReattachList(s, ids)
    case ReattachClock => LoopOn(s, s.reattach.value.rows, s.clock)
    case ReattachInspect(ok) => DoReattachInspect(s, ok)
    case ReattachSave(ok) => DoReattachSave(s, ok)
    case Restart => DoRestart(s)
    case Tick(elapsed) => s.(clock := s.clock + elapsed)
  }

  // ---- runs ----

  predicate ValidRun(c: Config, s: State, steps: seq<Step>)
    decreases |steps|
  {
    steps == [] || (Enabled(c, s, steps[0]) && ValidRun(c, Do(c, s, steps[0]), steps[1..]))
  }

  function After(c: Config, s: State, steps: seq<Step>): State
    requires ValidRun(c, s, steps)
    decreases |steps|
  {
    if steps == [] then s else After(c, Do(c, s, steps[0]), steps[1..])
  }
}
