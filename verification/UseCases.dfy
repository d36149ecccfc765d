/** The use cases as the process runs them: objects over a repository, a runner and a webhook
    dispatcher, each proved against a function from the world before to the world after. */
module UseCases {
  import opened Wrappers
  import opened JobDomain
  import opened JobProtocol
  import opened JobsRepo

  datatype Sent = Sent(row: JobRow, url: string, logTail: string)

  /** What one use case can see and change. */
  datatype World = World(
    jobs: map<JobID, JobRow>,
    started: map<ContainerID, StartSpec>,
    alive: set<ContainerID>,
    hooks: seq<Sent>)

  datatype EnqueueOutput = EnqueueOutput(jobID: JobID, status: Status)

  /** The errors with which the storage itself refuses the calls of an enqueue request, if it does. */
  datatype Storage = Storage(
    create: Option<Error>, countUser: Option<Error>, countGlobal: Option<Error>, update: Option<Error>)

  /** The answers an enqueue request gets from outside: ids, clock, credentials, docker, storage. */
  datatype EnqueueEnv = EnqueueEnv(
    id: JobID, now: Time, git: Option<Error>, anthropic: Option<Error>,
    docker: Result<ContainerID>, later: Time, storage: Storage)

  function Message(e: Error): string {
    match e
    case NotFound => "not found"
    case Conflict => "conflict"
    case InvalidState => "invalid state transition"
    case InvalidInput => "invalid input"
    case Failure(m) => m
  }

  /** Missing credentials are reported as invalid input. */
  function CredsError(e: Error): Error {
    if e == NotFound then InvalidInput else e
  }

  /** What the two cap checks say about a request whose row is among jobs. */
  datatype Admission = Admitted | HeldBack | Refused(error: Error)

  function AdmissionOf(c: Config, jobs: map<JobID, JobRow>, u: UserID, st: Storage): Admission {
    if c.maxPerUser > 0 && st.countUser.Some? then Refused(st.countUser.value)
    else if c.maxPerUser > 0 && |ActiveFor(jobs, u)| > c.maxPerUser then HeldBack
    else if c.maxGlobal > 0 && st.countGlobal.Some? then Refused(st.countGlobal.value)
    else if c.maxGlobal > 0 && |ActiveAll(jobs)| > c.maxGlobal then HeldBack
    else Admitted
  }

  /** The second half of a request: container, then the last Update. */
  function LaunchSpec(w: World, row: JobRow, input: EnqueueInput, e: EnqueueEnv): (World, Result<EnqueueOutput>) {
    match e.docker
    case Err(x) =>
      (if e.storage.update.Some? then w
       else w.(jobs := w.jobs[e.id := Granted(row, ToFailed(Message(x)), e.later)]), Err(x))
    case Ok(cid) =>
      var started := w.(started := w.started[cid := SpecFor(e.id, input)], alive := w.alive + {cid});
      if e.storage.update.Some? then (started, Err(e.storage.update.value))
      else (started.(jobs := w.jobs[e.id := Granted(row, ToRunning(cid), e.later)]), Ok(EnqueueOutput(e.id, Running)))
  }

  function EnqueueSpec(c: Config, w: World, input: EnqueueInput, e: EnqueueEnv): (World, Result<EnqueueOutput>) {
    if !input.Valid() then (w, Err(InvalidInput))
    else if e.storage.create.Some? then (w, Err(e.storage.create.value))
    else if e.id in w.jobs then (w, Err(Conflict))
    else
      var row := RowFor(c, e.id, input, e.now);
      var queued := w.(jobs := w.jobs[e.id := row]);
      match AdmissionOf(c, queued.jobs, input.userID, e.storage)
      case HeldBack => (queued, Ok(EnqueueOutput(e.id, Queued)))
      case Refused(x) => (queued, Err(x))
      case Admitted =>
        if e.git.Some? then (queued, Err(CredsError(e.git.value)))
        else if e.anthropic.Some? then (queued, Err(CredsError(e.anthropic.value)))
        else LaunchSpec(queued, row, input, e)
  }

  function CancelSpec(w: World, id: JobID, u: UserID, killed: bool, now: Time): (World, Option<Error>) {
    if id == "" || u == "" then (w, Some(InvalidInput))
    else if id !in w.jobs || w.jobs[id].userID != u then (w, Some(NotFound))
    else if w.jobs[id].IsTerminal() then (w, Some(InvalidState))
    else
      var r := w.jobs[id];
      (w.(jobs := w.jobs[id := Granted(r, ToCancelled, now)],
          alive := if r.containerID != "" && killed then w.alive - {r.containerID} else w.alive), None)
  }

  function CompleteSpec(webhookWired: bool, w: World, res: RunnerResult, now: Time): (World, Option<Error>) {
    if res.jobID == "" then (w, Some(InvalidInput))
    else if res.jobID !in w.jobs then (w, Some(NotFound))
    else
      match Apply(w.jobs[res.jobID], Verdict(res), now)
      case Err(x) => (w, Some(x))
      case Ok(row) =>
        (w.(jobs := w.jobs[res.jobID := row],
            hooks := if webhookWired && res.notificationWebhook != ""
                     then w.hooks + [Sent(row, res.notificationWebhook, res.logTail)]
                     else w.hooks),
         None)
  }

  /** What can go wrong in the recovery loop: containers whose inspection is an error, and jobs whose
      Update the storage refuses. */
  datatype Trouble = Trouble(broken: set<ContainerID>, refused: set<JobID>)

  /** The loop cannot get past this row. */
  predicate Fails(r: JobRow, alive: set<ContainerID>, t: Trouble) {
    r.containerID in t.broken || (r.containerID !in alive && r.id in t.refused)
  }

  /** The recovery loop over the listed rows. The first failing call ends it. */
  function ReattachSpec(m: map<JobID, JobRow>, rows: seq<JobRow>, alive: set<ContainerID>, t: Trouble, now: Time)
    : (map<JobID, JobRow>, bool)
    decreases |rows|
  {
    if rows == [] then (m, true)
    else if Fails(rows[0], alive, t) then (m, false)
    else if rows[0].containerID in alive then ReattachSpec(m, rows[1..], alive, t, now)
    else ReattachSpec(m[rows[0].id := Granted(rows[0], ToFailed(GONE_REASON), now)], rows[1..], alive, t, now)
  }

  // ---- the objects ----

  class RunnerService {
    var started: map<ContainerID, StartSpec>
    var alive: set<ContainerID>

    constructor ()
      ensures started == map[] && alive == {}
    {
      started, alive := map[], {};
    }

    /** docker is the runtime's answer; the ids it hands out are new. */
    method Start(spec: StartSpec, docker: Result<ContainerID>) returns (r: Result<ContainerID>)
      requires docker.Ok? ==> docker.value !in started
      modifies this
      ensures r == docker
      ensures docker.Ok? ==> started == old(started)[docker.value := spec] && alive == old(alive) + {docker.value}
      ensures docker.Err? ==> started == old(started) && alive == old(alive)
    {
      if docker.Err? {
        return docker;
      }
      started := started[docker.value := spec];
      alive := alive + {docker.value};
      return docker;
    }

    method Inspect(cid: ContainerID) returns (running: bool)
      ensures running <==> cid in alive
    {
      running := cid in alive;
    }

    /** killed is the runtime's answer; the caller does not get to see it. */
    method Stop(cid: ContainerID, killed: bool)
      modifies this`alive
      ensures alive == if killed then old(alive) - {cid} else old(alive)
    {
      if killed {
        alive := alive - {cid};
      }
    }
  }

  class Dispatcher {
    var sent: seq<Sent>

    constructor ()
      ensures sent == []
    {
      sent := [];
    }

    method Dispatch(row: JobRow, url: string, logTail: string)
      modifies this
      ensures sent == old(sent) + [Sent(row, url, logTail)]
    {
      sent := sent + [Sent(row, url, logTail)];
    }
  }

  class EnqueueJob {
    const config: Config
    const jobs: FakeJobsRepo
    const runner: RunnerService

    constructor (config: Config, jobs: FakeJobsRepo, runner: RunnerService)
      ensures this.config == config && this.jobs == jobs && this.runner == runner
    {
      this.config, this.jobs, this.runner := config, jobs, runner;
    }

    /** An enqueue request cannot reach the webhook dispatcher. */
    function Seen(): World
      reads jobs, runner
    {
      World(jobs.m, runner.started, runner.alive, [])
    }

    /** The new job with its log path: pinned by the caller, or derived. */
    method NewJob(input: EnqueueInput, env: EnqueueEnv) returns (job: Job)
      ensures fresh(job) && job.Row() == RowFor(config, env.id, input, env.now)
    {
      job := new Job(env.id, input.userID, input.repo, input.baseBranch, input.workBranch,
                     input.spec, input.modelOverride, env.now);
      var logPath := input.logPath;
      if logPath == "" {
        logPath := if config.logDir == "" then env.id + ".log" else config.logDir + "/" + env.id + ".log";
      }
      job.logPath := logPath;
    }

    /** The cap checks, made after the row was stored. */
    method Admit(u: UserID, st: Storage) returns (a: Admission)
      ensures a == AdmissionOf(config, jobs.m, u, st)
    {
      if config.maxPerUser > 0 {
        if st.countUser.Some? {
          return Refused(st.countUser.value);
        }
        var n := jobs.CountActiveForUser(u);
        if n > config.maxPerUser {
          return HeldBack;
        }
      }
      if config.maxGlobal > 0 {
        if st.countGlobal.Some? {
          return Refused(st.countGlobal.value);
        }
        var n := jobs.CountActiveGlobal();
        if n > config.maxGlobal {
          return HeldBack;
        }
      }
      return Admitted;
    }

    /** Starts the container of a stored queued job and records how that went. */
    method Launch(job: Job, input: EnqueueInput, env: EnqueueEnv) returns (r: Result<EnqueueOutput>)
      requires job.id == env.id && job.id in jobs.m && job.status == Queued
      requires env.docker.Ok? ==> env.docker.value !in runner.started
      modifies job, jobs, runner
      ensures env.docker.Ok? ==>
                var spec := StartSpec(env.id, input.repo, input.baseBranch, input.workBranch, input.spec,
                                      input.modelOverride, input.logPath);
                runner.started == old(runner.started)[env.docker.value := spec]
      ensures (Seen(), r) == LaunchSpec(old(Seen()), old(job.Row()), input, env)
    {
      var spec := StartSpec(job.id, input.repo, input.baseBranch, input.workBranch, input.spec,
                            input.modelOverride, input.logPath);
      var container := runner.Start(spec, env.docker);
      if container.Err? {
        var _ := job.MarkFailed(Message(container.error), env.later);
        if env.storage.update.None? {
          var _ := jobs.Update(job);
        }
        return Err(container.error);
      }
      var err := job.MarkRunning(container.value, env.later);
      match err {
        case Some(x) => return Err(x);
        case None =>
      }
      if env.storage.update.Some? {
        return Err(env.storage.update.value);
      }
      err := jobs.Update(job);
      match err {
        case Some(x) => return Err(x);
        case None =>
      }
      return Ok(EnqueueOutput(job.id, job.status));
    }

    method Execute(input: EnqueueInput, env: EnqueueEnv) returns (r: Result<EnqueueOutput>)
      requires env.docker.Ok? ==> env.docker.value !in runner.started
      modifies jobs, runner
      ensures (Seen(), r) == EnqueueSpec(config, old(Seen()), input, env)
    {
      if input.userID == "" || input.repo == "" || input.baseBranch == "" || input.workBranch == ""
         || !input.spec.Valid()
      {
        return Err(InvalidInput);
      }
      var job := NewJob(input, env);
      if env.storage.create.Some? {
        return Err(env.storage.create.value);
      }
      var err := jobs.Create(job);
      if err.Some? {
        return Err(err.value);
      }
      var admission := Admit(input.userID, env.storage);
      if admission.HeldBack? {
        return Ok(EnqueueOutput(job.id, job.status));
      }
      if admission.Refused? {
        return Err(admission.error);
      }
      if env.git.Some? {
        return Err(CredsError(env.git.value));
      }
      if env.anthropic.Some? {
        return Err(CredsError(env.anthropic.value));
      }
      r := Launch(job, input, env);
    }
  }

  class CancelJob {
    const jobs: FakeJobsRepo
    const runner: RunnerService

    constructor (jobs: FakeJobsRepo, runner: RunnerService)
      ensures this.jobs == jobs && this.runner == runner
    {
      this.jobs, this.runner := jobs, runner;
    }

    function Seen(hooks: seq<Sent>): World
      reads jobs, runner
    {
      World(jobs.m, runner.started, runner.alive, hooks)
    }

    method Execute(id: JobID, u: UserID, killed: bool, now: Time) returns (err: Option<Error>)
      requires Keyed(jobs.m)
      modifies jobs, runner`alive
      ensures forall hooks :: (Seen(hooks), err) == CancelSpec(old(Seen(hooks)), id, u, killed, now)
    {
      if id == "" || u == "" {
        return Some(InvalidInput);
      }
      var found := jobs.GetForUser(id, u);
      if found.Err? {
        return Some(found.error);
      }
      var job := new Job.FromRow(found.value);
      if job.Row().IsTerminal() {
        return Some(InvalidState);
      }
      if job.containerID != "" {
        runner.Stop(job.containerID, killed);
      }
      err := job.MarkCancelled(now);
      if err.Some? {
        return err;
      }
      err := jobs.Update(job);
    }
  }

  class HandleRunnerCompletion {
    const jobs: FakeJobsRepo
    const webhook: Dispatcher?

    constructor (jobs: FakeJobsRepo, webhook: Dispatcher?)
      ensures this.jobs == jobs && this.webhook == webhook
    {
      this.jobs, this.webhook := jobs, webhook;
    }

    function Seen(started: map<ContainerID, StartSpec>, alive: set<ContainerID>): World
      reads jobs, webhook
    {
      World(jobs.m, started, alive, if webhook == null then [] else webhook.sent)
    }

    method Execute(res: RunnerResult, now: Time) returns (err: Option<Error>)
      requires Keyed(jobs.m)
      modifies jobs, webhook
      ensures forall started, alive ::
                (Seen(started, alive), err) == CompleteSpec(webhook != null, old(Seen(started, alive)), res, now)
    {
      if res.jobID == "" {
        return Some(InvalidInput);
      }
      var found := jobs.Get(res.jobID);
      if found.Err? {
        return Some(found.error);
      }
      var job := new Job.FromRow(found.value);
      if res.exitCode == 0 {
        err := job.MarkSucceeded(res.prURL, now);
        if err.Some? {
          return err;
        }
      } else {
        var reason := res.error;
        if reason == "" {
          reason := DEFAULT_REASON;
        }
        err := job.MarkFailed(reason, now);
        if err.Some? {
          return err;
        }
      }
      err := jobs.Update(job);
      if err.Some? {
        return err;
      }
      if webhook != null && res.notificationWebhook != "" {
        webhook.Dispatch(job.Row(), res.notificationWebhook, res.logTail);
      }
      return None;
    }
  }
}
