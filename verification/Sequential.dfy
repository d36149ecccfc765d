/** Use cases run one at a time. Their outcomes, in terms of what was stored before; the rule that
    the first to finish a job wins; and the fact that each such execution is one of the runs the
    interleaving model ranges over. */
module Sequential {
  import opened Wrappers
  import opened JobDomain
  import opened JobProtocol
  import opened JobInvariant
  import opened JobsRepo
  import opened UseCases

  // ---- admission ----

  lemma OneMoreForUser(m: map<JobID, JobRow>, row: JobRow)
    requires row.id !in m && row.IsActive()
    ensures |ActiveFor(m[row.id := row], row.userID)| == |ActiveFor(m, row.userID)| + 1
  {
    var m' := m[row.id := row];
    forall id ensures id in ActiveFor(m', row.userID) <==> id in ActiveFor(m, row.userID) + {row.id} {
    }
    assert ActiveFor(m', row.userID) == ActiveFor(m, row.userID) + {row.id};
  }

  lemma OneMoreGlobally(m: map<JobID, JobRow>, row: JobRow)
    requires row.id !in m && row.IsActive()
    ensures |ActiveAll(m[row.id := row])| == |ActiveAll(m)| + 1
  {
    var m' := m[row.id := row];
    forall id ensures id in ActiveAll(m') <==> id in ActiveAll(m) + {row.id} {
    }
    assert ActiveAll(m') == ActiveAll(m) + {row.id};
  }

  /** A new request's own row is one more among those counted. */
  lemma OneMoreActive(c: Config, m: map<JobID, JobRow>, id: JobID, input: EnqueueInput, now: Time)
    requires id !in m
    ensures |ActiveFor(m[id := RowFor(c, id, input, now)], input.userID)| == |ActiveFor(m, input.userID)| + 1
    ensures |ActiveAll(m[id := RowFor(c, id, input, now)])| == |ActiveAll(m)| + 1
  {
    hide ActiveFor, ActiveAll;
    OneMoreForUser(m, RowFor(c, id, input, now));
    OneMoreGlobally(m, RowFor(c, id, input, now));
  }

  /** Room for one more row, judged before the request arrives. */
  predicate HasRoom(c: Config, m: map<JobID, JobRow>, u: UserID) {
    && (c.maxPerUser > 0 ==> |ActiveFor(m, u)| < c.maxPerUser)
    && (c.maxGlobal > 0 ==> |ActiveAll(m)| < c.maxGlobal)
  }

  /** The counting queries that will be asked are answered. */
  predicate CountsAnswer(c: Config, st: Storage) {
    (c.maxPerUser > 0 ==> st.countUser.None?) && (c.maxGlobal > 0 ==> st.countGlobal.None?)
  }

  /** The admission, judged on the table as it was before the request came: a cap is in the way exactly if
      it is used up already. */
  function AdmissionBefore(c: Config, m: map<JobID, JobRow>, u: UserID, st: Storage): Admission {
    if c.maxPerUser > 0 && st.countUser.Some? then Refused(st.countUser.value)
    else if 0 < c.maxPerUser <= |ActiveFor(m, u)| then HeldBack
    else if c.maxGlobal > 0 && st.countGlobal.Some? then Refused(st.countGlobal.value)
    else if 0 < c.maxGlobal <= |ActiveAll(m)| then HeldBack
    else Admitted
  }

  /** The checks, made with the new row counted, admit it exactly if there was room before it came. */
  lemma AdmissionMeans(c: Config, m: map<JobID, JobRow>, id: JobID, input: EnqueueInput, now: Time, st: Storage)
    requires id !in m
    ensures var a := AdmissionOf(c, m[id := RowFor(c, id, input, now)], input.userID, st);
            && (a.Admitted? <==> HasRoom(c, m, input.userID) && CountsAnswer(c, st))
            && (a.HeldBack? ==> !HasRoom(c, m, input.userID))
            && (a.Refused? ==> !CountsAnswer(c, st))
            && a == AdmissionBefore(c, m, input.userID, st)
  {
    hide ActiveFor, ActiveAll, RowFor;
    OneMoreActive(c, m, id, input, now);
  }

  /** The request gets as far as its container. */
  predicate Launches(c: Config, w: World, input: EnqueueInput, e: EnqueueEnv) {
    HasRoom(c, w.jobs, input.userID) && CountsAnswer(c, e.storage) && e.git.None? && e.anthropic.None?
  }

  /** The row keeps what was asked for. */
  predicate Records(c: Config, row: JobRow, input: EnqueueInput, e: EnqueueEnv) {
    && row.id == e.id && row.userID == input.userID && row.repo == input.repo
    && row.baseBranch == input.baseBranch && row.workBranch == input.workBranch
    && row.spec == input.spec && row.modelOverride == input.modelOverride
    && row.createdAt == e.now && row.logPath == LogPathFor(c, e.id, input)
  }

  /** What a request that cannot be stored gets: nothing happens, and it is told why. */
  lemma EnqueueRefused(c: Config, w: World, input: EnqueueInput, e: EnqueueEnv)
    ensures var (w', r) := EnqueueSpec(c, w, input, e);
            && (!input.Valid() ==> r == Err(InvalidInput) && w' == w)
            && (input.Valid() && e.storage.create.Some? ==> r == Err(e.storage.create.value) && w' == w)
            && (input.Valid() && e.storage.create.None? && e.id in w.jobs ==> r == Err(Conflict) && w' == w)
    ensures input.Valid() <==>
              && input.userID != "" && input.repo != "" && input.baseBranch != "" && input.workBranch != ""
              && input.spec.value != "" && input.spec.kind in {"inline", "path", "url"}
  {
  }

  /** The reason recorded for a start that failed. */
  predicate SaysWhy(reason: string, x: Error) {
    match x
    case Failure(m) => reason == m
    case NotFound => reason == "not found"
    case Conflict => reason == "conflict"
    case InvalidState => reason == "invalid state transition"
    case InvalidInput => reason == "invalid input"
  }

  /** Missing credentials are the caller's fault; any other error is passed on. */
  predicate Blames(told: Error, x: Error) {
    told == if x == NotFound then InvalidInput else x
  }

  /** A request for a new id is stored as queued unless the storage refuses. Its container is started
      exactly when there was room for it and all answers up to there were good; what the row says in the
      end depends on the start and on the last Update. Without room it waits however good the answers are. */
  lemma EnqueueOutcome(c: Config, w: World, input: EnqueueInput, e: EnqueueEnv)
    requires input.Valid() && e.id !in w.jobs
    ensures var (w', r) := EnqueueSpec(c, w, input, e);
            if e.storage.create.Some? then w' == w && r == Err(e.storage.create.value)
            else
              var launches, saved := Launches(c, w, input, e), e.storage.update.None?;
              && e.id in w'.jobs && w'.jobs - {e.id} == w.jobs && w'.hooks == w.hooks
              && Records(c, w'.jobs[e.id], input, e)
              && w'.jobs[e.id].status == (if !launches || !saved then Queued
                                          else if e.docker.Ok? then Running else Failed)
              && (if launches && e.docker.Ok?
                  then w'.started.Keys == w.started.Keys + {e.docker.value}
                       && w'.started - {e.docker.value} == w.started - {e.docker.value}
                       && w'.alive == w.alive + {e.docker.value}
                       && WorksOn(w'.started[e.docker.value], input, e.id)
                  else w'.started == w.started && w'.alive == w.alive)
              && (CountsAnswer(c, e.storage) && !HasRoom(c, w.jobs, input.userID) ==>
                    r == Ok(EnqueueOutput(e.id, Queued)))
              && (r.Ok? ==> r.value == EnqueueOutput(e.id, w'.jobs[e.id].status))
              && (r.Ok? ==> w'.jobs[e.id].status == Running || !HasRoom(c, w.jobs, input.userID))
              && (w'.jobs[e.id].status == Running ==> r.Ok?)
  {
    hide AdmissionOf, HasRoom, CountsAnswer, AdmissionBefore;
    AdmissionMeans(c, w.jobs, e.id, input, e.now, e.storage);
    var (w', r) := EnqueueSpec(c, w, input, e);
    if e.storage.create.None? {
      assert w'.jobs - {e.id} == w.jobs;
    }
  }

  /** The container is told what was asked for. */
  predicate WorksOn(spec: StartSpec, input: EnqueueInput, id: JobID) {
    && spec.jobID == id && spec.repo == input.repo && spec.spec == input.spec
    && spec.baseBranch == input.baseBranch && spec.workBranch == input.workBranch
    && spec.model == input.modelOverride && spec.logPath == input.logPath
  }

  /** The row in full: only a job that runs has a container and a start time, only one that failed has an
      error and a finish time. */
  lemma EnqueuedRow(c: Config, w: World, input: EnqueueInput, e: EnqueueEnv)
    requires input.Valid() && e.id !in w.jobs && e.storage.create.None?
    ensures var row := EnqueueSpec(c, w, input, e).0.jobs[e.id];
            && row.prURL == ""
            && (if row.status == Running
                then e.docker.Ok? && row.containerID == e.docker.value && row.startedAt == Some(e.later)
                else row.containerID == "" && row.startedAt == None)
            && (if row.status == Failed
                then e.docker.Err? && SaysWhy(row.error, e.docker.error) && row.finishedAt == Some(e.later)
                else row.error == "" && row.finishedAt == None)
  {
    hide AdmissionOf;
  }

  /** What the caller is told, from the state before the request. */
  lemma EnqueueAnswer(c: Config, w: World, input: EnqueueInput, e: EnqueueEnv)
    requires input.Valid() && e.id !in w.jobs && e.storage.create.None?
    ensures var r := EnqueueSpec(c, w, input, e).1;
            match AdmissionBefore(c, w.jobs, input.userID, e.storage)
            case HeldBack => r == Ok(EnqueueOutput(e.id, Queued))
            case Refused(x) => r == Err(x)
            case Admitted =>
              if e.git.Some? then r.Err? && Blames(r.error, e.git.value)
              else if e.anthropic.Some? then r.Err? && Blames(r.error, e.anthropic.value)
              else if e.docker.Err? then r == Err(e.docker.error)
              else if e.storage.update.Some? then r == Err(e.storage.update.value)
              else r == Ok(EnqueueOutput(e.id, Running))
  {
    hide AdmissionOf, AdmissionBefore;
    AdmissionMeans(c, w.jobs, e.id, input, e.now, e.storage);
  }

  // ---- the first to finish wins ----

  datatype Op =
    | Enqueue(input: EnqueueInput, env: EnqueueEnv)
    | Cancel(id: JobID, userID: UserID, killed: bool, now: Time)
    | Complete(res: RunnerResult, now: Time)
    | Recover(rows: seq<JobRow>, trouble: Trouble, now: Time)

  function Perform(c: Config, w: World, op: Op): (World, Option<Error>) {
    match op
    case Enqueue(input, env) =>
      var (w', r) := EnqueueSpec(c, w, input, env);
      (w', if r.Err? then Some(r.error) else None)
    case Cancel(id, u, killed, now) => CancelSpec(w, id, u, killed, now)
    case Complete(res, now) => CompleteSpec(c.webhookWired, w, res, now)
    case Recover(rows, t, now) =>
      var (m, ok) := ReattachSpec(w.jobs, rows, w.alive, t, now);
      (w.(jobs := m), if ok then None else Some(Failure("startup recovery stopped")))
  }

  function PerformAll(c: Config, w: World, ops: seq<Op>): World
    decreases |ops|
  {
    if ops == [] then w else PerformAll(c, Perform(c, w, ops[0]).0, ops[1..])
  }

  /** Recovery works on a listing of the running rows. */
  ghost predicate ValidOp(w: World, op: Op) {
    op.Recover? ==> ListsAllRunning(w.jobs, op.rows)
  }

  ghost predicate ValidOps(c: Config, w: World, ops: seq<Op>)
    decreases |ops|
  {
    ops == [] || (ValidOp(w, ops[0]) && ValidOps(c, Perform(c, w, ops[0]).0, ops[1..]))
  }

  /** The operation tries to finish this job. */
  predicate Finishes(op: Op, id: JobID) {
    (op.Cancel? && op.id == id) || (op.Complete? && op.res.jobID == id)
  }

  lemma {:induction false} RecoveryLeaves(m: map<JobID, JobRow>, rows: seq<JobRow>, alive: set<ContainerID>,
                                          t: Trouble, now: Time, id: JobID)
    requires id in m && forall i :: 0 <= i < |rows| ==> rows[i].id != id
    ensures var m' := ReattachSpec(m, rows, alive, t, now).0; id in m' && m'[id] == m[id]
    decreases |rows|
  {
    hide Granted;
    if rows != [] {
      assert forall i :: 0 <= i < |rows[1..]| ==> rows[1..][i] == rows[i + 1];
      if !Fails(rows[0], alive, t) {
        RecoveryLeaves(if rows[0].containerID in alive then m
                       else m[rows[0].id := Granted(rows[0], ToFailed(GONE_REASON), now)],
                       rows[1..], alive, t, now, id);
      }
    }
  }

  lemma TerminalRowStays(c: Config, w: World, op: Op, id: JobID)
    requires id in w.jobs && w.jobs[id].IsTerminal() && ValidOp(w, op)
    ensures id in Perform(c, w, op).0.jobs && Perform(c, w, op).0.jobs[id] == w.jobs[id]
  {
    if op.Recover? {
      forall i | 0 <= i < |op.rows| ensures op.rows[i].id != id {
        assert op.rows[i].id in RowsWith(w.jobs, Running);
      }
      RecoveryLeaves(w.jobs, op.rows, w.alive, op.trouble, op.now, id);
    }
  }

  /** With use cases, recovery among them, run one at a time a terminal row never changes. */
  lemma {:induction false} TerminalRowsStay(c: Config, w: World, ops: seq<Op>, id: JobID)
    requires id in w.jobs && w.jobs[id].IsTerminal() && ValidOps(c, w, ops)
    ensures id in PerformAll(c, w, ops).jobs && PerformAll(c, w, ops).jobs[id] == w.jobs[id]
    decreases |ops|
  {
    hide ValidOp, Perform;
    if ops != [] {
      TerminalRowStays(c, w, ops[0], id);
      TerminalRowsStay(c, Perform(c, w, ops[0]).0, ops[1..], id);
    }
  }

  /** The first cancel or completion that succeeds on a job decides its row. Whatever happens in
      between, each later attempt to finish that job gets an error and changes nothing at all. */
  lemma FirstFinisherWins(c: Config, w: World, first: Op, between: seq<Op>, later: Op, id: JobID)
    requires Finishes(first, id) && Perform(c, w, first).1.None? && Finishes(later, id)
    requires ValidOps(c, Perform(c, w, first).0, between)
    ensures var w1 := Perform(c, w, first).0;
            var w2 := PerformAll(c, w1, between);
            && id in w1.jobs && w1.jobs[id].IsTerminal() && id in w2.jobs && w2.jobs[id] == w1.jobs[id]
            && Perform(c, w2, later).1.Some? && Perform(c, w2, later).0 == w2
  {
    var w1 := Perform(c, w, first).0;
    TerminalRowsStay(c, w1, between, id);
  }

  /** Only the owner can cancel, only an active row, and only a container named in the row is stopped. */
  lemma CancelOutcome(w: World, id: JobID, u: UserID, killed: bool, now: Time)
    ensures var (w', err) := CancelSpec(w, id, u, killed, now);
            && (err.None? <==> id != "" && u != "" && id in w.jobs && w.jobs[id].userID == u && w.jobs[id].IsActive())
            && (err.Some? ==> w' == w)
            && w'.started == w.started && w'.hooks == w.hooks
            && (id == "" || u == "" ==> err == Some(InvalidInput))
            && (id != "" && u != "" ==>
                  && (id !in w.jobs || w.jobs[id].userID != u ==> err == Some(NotFound))
                  && (id in w.jobs && w.jobs[id].userID == u && w.jobs[id].status in {Succeeded, Failed, Cancelled} ==>
                        err == Some(InvalidState)))
            && (err.None? ==> id in w'.jobs && w'.jobs - {id} == w.jobs - {id}
                              && w'.jobs[id] == w.jobs[id].(status := Cancelled, finishedAt := Some(now))
                              && w.alive - w'.alive <= {w.jobs[id].containerID} && w'.alive <= w.alive
                              && (if killed && w.jobs[id].containerID != "" then w.jobs[id].containerID !in w'.alive
                                  else w'.alive == w.alive))
  {
    var (w', err) := CancelSpec(w, id, u, killed, now);
    if err.None? {
      assert w'.jobs - {id} == w.jobs - {id};
    }
  }

  /** A report is accepted only for a row it can finish; it decides the row by its exit code, a
      failure always names a reason, nothing else of the row changes, and the webhook gets exactly the
      stored row. */
  lemma CompleteOutcome(wired: bool, w: World, res: RunnerResult, now: Time)
    ensures var (w', err) := CompleteSpec(wired, w, res, now);
            && (err.None? <==> res.jobID != "" && res.jobID in w.jobs && w.jobs[res.jobID].IsActive()
                               && (res.exitCode == 0 ==> w.jobs[res.jobID].status == Running))
            && (err.Some? ==> w' == w)
            && (res.jobID == "" ==> err == Some(InvalidInput))
            && (res.jobID != "" && res.jobID !in w.jobs ==> err == Some(NotFound))
            && (res.jobID != "" && res.jobID in w.jobs && err.Some? ==> err == Some(InvalidState))
            && w'.alive == w.alive && w'.started == w.started
            && (err.None? ==>
                  && res.jobID in w'.jobs && w'.jobs - {res.jobID} == w.jobs - {res.jobID}
                  && w'.jobs[res.jobID] == Finished(w.jobs[res.jobID], res, now)
                  && w'.hooks == w.hooks + (if wired && res.notificationWebhook != ""
                                            then [Sent(w'.jobs[res.jobID], res.notificationWebhook, res.logTail)]
                                            else []))
  {
    var (w', err) := CompleteSpec(wired, w, res, now);
    if err.None? {
      assert w'.jobs - {res.jobID} == w.jobs - {res.jobID};
    }
  }

  /** The row a report makes of the one before. */
  function Finished(r: JobRow, res: RunnerResult, now: Time): JobRow {
    if res.exitCode == 0 then r.(status := Succeeded, prURL := res.prURL, finishedAt := Some(now))
    else
      var reason := if res.error != "" then res.error else "runner exited with non-zero code";
      r.(status := Failed, error := reason, finishedAt := Some(now))
  }

  // ---- runs of the interleaving model ----

  ghost predicate Leads(c: Config, s: State, s': State) {
    exists steps :: ValidRun(c, s, steps) && After(c, s, steps) == s'
  }

  lemma {:induction false} OneMore(c: Config, s: State, steps: seq<Step>, a: Step)
    requires ValidRun(c, s, steps) && Enabled(c, After(c, s, steps), a)
    ensures ValidRun(c, s, steps + [a]) && After(c, s, steps + [a]) == Do(c, After(c, s, steps), a)
    decreases |steps|
  {
    if steps == [] {
      assert [a][1..] == [];
      assert ValidRun(c, Do(c, s, a), []);
    } else {
      assert (steps + [a])[1..] == steps[1..] + [a];
      OneMore(c, Do(c, s, steps[0]), steps[1..], a);
    }
  }

  lemma Stay(c: Config, s: State)
    ensures Leads(c, s, s)
  {
    assert ValidRun(c, s, []) && After(c, s, []) == s;
  }

  lemma Then(c: Config, s: State, s1: State, a: Step)
    requires Leads(c, s, s1) && Enabled(c, s1, a)
    ensures Leads(c, s, Do(c, s1, a))
  {
    var steps :| ValidRun(c, s, steps) && After(c, s, steps) == s1;
    OneMore(c, s, steps, a);
  }

  /** What a state of the model shows when its threads are left out. */
  function Shown(s: State): World {
    World(s.jobs, StartedOf(s.containers), AliveOf(s.containers), SentOf(s.hooks))
  }

  function StartedOf(ks: map<ContainerID, Container>): map<ContainerID, StartSpec> {
    map cid | cid in ks :: ks[cid].spec
  }

  function AliveOf(ks: map<ContainerID, Container>): set<ContainerID> {
    set cid | cid in ks && ks[cid].alive
  }

  function SentOf(hooks: seq<HookCall>): seq<Sent> {
    seq(|hooks|, i requires 0 <= i < |hooks| => Sent(hooks[i].row, hooks[i].url, hooks[i].logTail))
  }

  lemma ShownContainers(ks: map<ContainerID, Container>, cid: ContainerID, k: Container)
    ensures StartedOf(ks[cid := k]) == StartedOf(ks)[cid := k.spec]
    ensures AliveOf(ks[cid := k]) == if k.alive then AliveOf(ks) + {cid} else AliveOf(ks) - {cid}
    ensures cid in ks && ks[cid].spec == k.spec ==> StartedOf(ks[cid := k]) == StartedOf(ks)
    ensures cid in ks && ks[cid].alive == k.alive ==> AliveOf(ks[cid := k]) == AliveOf(ks)
  {
  }

  lemma ShownKill(s: State, cid: ContainerID)
    ensures Shown(Kill(s, cid)) == Shown(s).(alive := Shown(s).alive - {cid})
  {
    if cid in s.containers {
      ShownContainers(s.containers, cid, s.containers[cid].(alive := false));
    } else {
      assert AliveOf(s.containers) - {cid} == AliveOf(s.containers);
    }
  }

  lemma ShownSupervisor(s: State, cid: ContainerID, v: Supervisor)
    requires cid in s.containers
    ensures Shown(SetSupervisor(s, cid, v)) == Shown(s)
  {
    ShownContainers(s.containers, cid, s.containers[cid].(supervisor := v));
  }

  lemma ShownNotify(s: State, cid: ContainerID)
    requires cid in s.containers && s.containers[cid].supervisor.Notifying?
    ensures var v := s.containers[cid].supervisor;
            Shown(DoNotify(s, cid)) == Shown(s).(hooks := Shown(s).hooks + [Sent(v.row, v.url, v.logTail)])
  {
    ShownSupervisor(s, cid, Gone);
    var v := s.containers[cid].supervisor;
    assert SentOf(s.hooks + [HookCall(cid, v.row, v.url, v.logTail)])
        == SentOf(s.hooks) + [Sent(v.row, v.url, v.logTail)];
  }

  ghost predicate SameOutside(s: State, s': State) {
    s'.containers == s.containers && s'.hooks == s.hooks && s'.cancels == s.cancels && s'.reattach == s.reattach
  }

  lemma GrantedKeepsId(r: JobRow, x: Transition, now: Time)
    ensures Granted(r, x, now).id == r.id
  {
  }

  /** Where the cap checks leave a request. */
  function Checked(a: Admission): EnqueuePc {
    match a
    case Admitted => FetchingCreds
    case HeldBack => Ended(OverCap)
    case Refused(_) => Ended(Aborted)
  }

  /** An undisturbed request up to the first cap check that stops it, or up to its credentials. */
  lemma ToTheCredentials(c: Config, s: State, input: EnqueueInput, id: JobID, now: Time, st: Storage)
    returns (s': State)
    requires s.jobs.Keys == s.enqueues.Keys && id !in s.jobs && id != "" && input.Valid() && s.clock <= now
    ensures Leads(c, s, s') && SameOutside(s, s') && s'.finished == s.finished && s'.clock == now
    ensures s'.jobs == s.jobs[id := RowFor(c, id, input, now)]
    ensures s'.enqueues - {id} == s.enqueues && id in s'.enqueues
    ensures s'.enqueues[id].row == RowFor(c, id, input, now)
    ensures s'.enqueues[id].input == input && s'.enqueues[id].seen == now && s'.enqueues[id].container.None?
    ensures s'.enqueues[id].pc == Checked(AdmissionOf(c, s'.jobs, input.userID, st))
  {
    hide Leads, RowFor, ActiveFor, ActiveAll;
    Stay(c, s);
    Then(c, s, s, Tick(now - s.clock));
    var s1 := s.(clock := now);
    Then(c, s, s1, Create(input, id, now));
    var s2 := DoCreate(c, s1, input, id, now);
    assert Leads(c, s, s2);
    s' := ToTheChecks(c, s, s2, id, st);
    assert s'.enqueues - {id} == s.enqueues;
  }

  lemma ToTheChecks(c: Config, s: State, s1: State, id: JobID, st: Storage) returns (s': State)
    requires Leads(c, s, s1) && AtPc(s1, id, CountingUser)
    ensures Leads(c, s, s') && id in s'.enqueues && s' == SetThread(s1, id, s'.enqueues[id])
    ensures s'.enqueues[id].row == s1.enqueues[id].row && s'.enqueues[id].input == s1.enqueues[id].input
    ensures s'.enqueues[id].seen == s1.clock && s'.enqueues[id].container == s1.enqueues[id].container
    ensures s'.enqueues[id].pc == Checked(AdmissionOf(c, s1.jobs, s1.enqueues[id].input.userID, st))
  {
    hide Leads, ActiveFor, ActiveAll, After, ValidRun;
    var ok := c.maxPerUser <= 0 || st.countUser.None?;
    Then(c, s, s1, CountUser(id, ok));
    s' := DoCountUser(c, s1, id, ok);
    if s'.enqueues[id].pc == CountingGlobal {
      s' := ToTheGlobalCheck(c, s, s', id, st);
    }
  }

  lemma ToTheGlobalCheck(c: Config, s: State, s1: State, id: JobID, st: Storage) returns (s': State)
    requires Leads(c, s, s1) && AtPc(s1, id, CountingGlobal)
    ensures var ok := c.maxGlobal <= 0 || st.countGlobal.None?;
            Leads(c, s, s') && s' == DoCountGlobal(c, s1, id, ok)
  {
    hide Leads, DoCountGlobal;
    var ok := c.maxGlobal <= 0 || st.countGlobal.None?;
    Then(c, s, s1, CountGlobal(id, ok));
    s' := DoCountGlobal(c, s1, id, ok);
  }

  /** What the end of a request stores. */
  function LastRow(row: JobRow, docker: Result<ContainerID>, later: Time): JobRow {
    match docker
    case Ok(cid) => Granted(row, ToRunning(cid), later)
    case Err(x) => Granted(row, ToFailed(Message(x)), later)
  }

  lemma LastRowKeepsId(row: JobRow, docker: Result<ContainerID>, later: Time)
    ensures LastRow(row, docker, later).id == row.id
  {
  }

  /** From its credentials to the answer of the runtime. */
  lemma ToTheRuntime(c: Config, s: State, s1: State, id: JobID, docker: Result<ContainerID>) returns (s': State)
    requires Leads(c, s, s1) && AtPc(s1, id, FetchingCreds)
    requires docker.Ok? ==> docker.value !in s1.containers
    ensures Leads(c, s, s') && s'.jobs == s1.jobs && s'.finished == s1.finished
    ensures s'.hooks == s1.hooks && s'.clock == s1.clock && s'.cancels == s1.cancels
    ensures s'.containers == if docker.Err? then s1.containers else
              s1.containers[docker.value := Container(SpecFor(id, s1.enqueues[id].input), true, Waiting)]
    ensures s'.enqueues == s1.enqueues[id := s1.enqueues[id].(
                             pc := if docker.Ok? then SavingRunning else SavingFailed(Message(docker.error)),
                             seen := s1.clock,
                             container := if docker.Ok? then Some(docker.value) else s1.enqueues[id].container)]
  {
    hide Leads, Message, SpecFor;
    Then(c, s, s1, FetchCreds(id, true));
    var s2 := DoFetchCreds(s1, id, true);
    if docker.Ok? {
      Then(c, s, s2, StartContainer(id, docker.value));
      s' := DoStartContainer(s2, id, docker.value);
    } else {
      Then(c, s, s2, StartFails(id, Message(docker.error)));
      s' := DoStartFails(s2, id, Message(docker.error));
    }
  }

  /** From its credentials on: started and saved, or refused by the runtime and saved as failed. */
  lemma ToTheEnd(c: Config, s: State, s1: State, id: JobID, docker: Result<ContainerID>, later: Time, saved: bool)
    returns (s': State)
    requires Leads(c, s, s1) && id in s1.jobs && AtPc(s1, id, FetchingCreds) && s1.enqueues[id].row.id == id
    requires docker.Ok? ==> docker.value !in s1.containers
    requires s1.clock <= later
    ensures Leads(c, s, s') && s'.hooks == s1.hooks && s'.clock == later && s1.finished <= s'.finished
    ensures s'.cancels == s1.cancels && id in s'.enqueues && s'.enqueues[id].pc.Ended?
    ensures s'.jobs.Keys == s1.jobs.Keys && s'.enqueues.Keys == s1.enqueues.Keys
    ensures forall i :: i in s1.enqueues && i != id ==> s'.enqueues[i] == s1.enqueues[i]
    ensures s'.containers == if docker.Err? then s1.containers else
              s1.containers[docker.value := Container(SpecFor(id, s1.enqueues[id].input), true, Waiting)]
    ensures s'.jobs == if saved then s1.jobs[id := LastRow(s1.enqueues[id].row, docker, later)] else s1.jobs
  {
    hide Leads, Granted, Message, SpecFor, Apply;
    var s3 := ToTheRuntime(c, s, s1, id, docker);
    LastRowKeepsId(s1.enqueues[id].row, docker, later);
    Then(c, s, s3, Tick(later - s3.clock));
    var s4 := s3.(clock := later);
    if docker.Ok? {
      Then(c, s, s4, SaveRunning(id, later, saved));
      s' := DoSaveRunning(s4, id, later, saved);
    } else {
      Then(c, s, s4, SaveFailed(id, later, saved));
      s' := DoSaveFailed(s4, id, later, saved);
    }
  }

  /** An enqueue request served alone is a run of the model: the method refines the protocol. */
  lemma EnqueueIsARun(c: Config, s: State, input: EnqueueInput, e: EnqueueEnv) returns (s': State)
    requires s.jobs.Keys == s.enqueues.Keys && e.id != ""
    requires s.clock <= e.now <= e.later && (e.docker.Ok? ==> e.docker.value !in s.containers)
    ensures Leads(c, s, s') && Shown(s') == EnqueueSpec(c, Shown(s), input, e).0
    ensures input.Valid() && e.storage.create.None? && e.id !in s.jobs ==>
              e.id in s'.enqueues && s'.enqueues[e.id].pc.Ended?
  {
    hide Leads, AdmissionOf, Shown, LaunchSpec;
    ShownJobs(s);
    if input.Valid() && e.storage.create.None? && e.id !in s.jobs {
      s' := ToTheCredentials(c, s, input, e.id, e.now, e.storage);
      ShownQueued(s, s');
      if s'.enqueues[e.id].pc == FetchingCreds {
        if e.git.None? && e.anthropic.None? {
          s' := LaunchIsARun(c, s, s', input, e);
        } else {
          Then(c, s, s', FetchCreds(e.id, false));
          ShownQueued(s', DoFetchCreds(s', e.id, false));
          s' := DoFetchCreds(s', e.id, false);
        }
      }
    } else {
      Stay(c, s);
      s' := s;
    }
  }

  lemma ShownJobs(s: State)
    ensures Shown(s).jobs == s.jobs
  {
  }

  lemma ShownQueued(s: State, s': State)
    requires s'.containers == s.containers && s'.hooks == s.hooks
    ensures Shown(s') == Shown(s).(jobs := s'.jobs)
  {
  }

  lemma LaunchIsARun(c: Config, s: State, s1: State, input: EnqueueInput, e: EnqueueEnv) returns (s': State)
    requires Leads(c, s, s1) && e.id in s1.jobs && AtPc(s1, e.id, FetchingCreds)
    requires s1.enqueues[e.id].row.id == e.id && s1.enqueues[e.id].input == input
    requires s1.clock <= e.later && (e.docker.Ok? ==> e.docker.value !in s1.containers)
    ensures Leads(c, s, s') && Shown(s') == LaunchSpec(Shown(s1), s1.enqueues[e.id].row, input, e).0
    ensures e.id in s'.enqueues && s'.enqueues[e.id].pc.Ended?
  {
    hide Leads, Granted, SpecFor, Message;
    if e.docker.Ok? {
      ShownContainers(s1.containers, e.docker.value, Container(SpecFor(e.id, input), true, Waiting));
    }
    s' := ToTheEnd(c, s, s1, e.id, e.docker, e.later, e.storage.update.None?);
  }

  /** So is a cancel request. */
  lemma CancelIsARun(c: Config, s: State, tid: nat, id: JobID, u: UserID, killed: bool, now: Time) returns (s': State)
    requires JobsOk(c, s.jobs, s.enqueues, s.clock, s.finished) && tid !in s.cancels && s.clock <= now
    ensures Leads(c, s, s') && Shown(s') == CancelSpec(Shown(s), id, u, killed, now).0 && s'.cancels == s.cancels
  {
    hide Leads, JobsOk;
    Stay(c, s);
    s' := s;
    if id != "" && u != "" && id in s.jobs && s.jobs[id].userID == u && !s.jobs[id].IsTerminal() {
      JobsAreFiled(c, s, id);
      s' := CancelWrites(c, s, tid, id, u, killed, now);
    }
  }

  /** Reading, and stopping the container the row names. */
  lemma CancelReads(c: Config, s: State, tid: nat, id: JobID, u: UserID, killed: bool) returns (s': State)
    requires tid !in s.cancels && id != "" && u != ""
    requires id in s.jobs && s.jobs[id].userID == u && s.jobs[id].IsActive()
    ensures Leads(c, s, s') && s'.cancels == s.cancels[tid := CancelThread(s.jobs[id], false, s.clock)]
    ensures s'.jobs == s.jobs && s'.clock == s.clock
    ensures Shown(s') == Shown(if s.jobs[id].containerID != "" && killed then Kill(s, s.jobs[id].containerID) else s)
  {
    hide Leads, After, ValidRun;
    Stay(c, s);
    Then(c, s, s, CancelRead(tid, id, u));
    s' := DoCancelRead(s, tid, id, u);
    if s.jobs[id].containerID != "" {
      Then(c, s, s', CancelStop(tid, killed));
      s' := DoCancelStop(s', tid, killed);
    }
  }

  lemma CancelWrites(c: Config, s: State, tid: nat, id: JobID, u: UserID, killed: bool, now: Time) returns (s': State)
    requires tid !in s.cancels && s.clock <= now && id != "" && u != ""
    requires id in s.jobs && s.jobs[id].userID == u && s.jobs[id].IsActive() && s.jobs[id].id == id
    ensures Leads(c, s, s') && s'.cancels == s.cancels
    ensures Shown(s') == CancelSpec(Shown(s), id, u, killed, now).0
  {
    hide Leads, After, ValidRun;
    var s1 := CancelReads(c, s, tid, id, u, killed);
    ShownKill(s, s.jobs[id].containerID);
    Then(c, s, s1, Tick(now - s1.clock));
    var s2 := s1.(clock := now);
    Then(c, s, s2, CancelSave(tid, now, true));
    s' := DoCancelSave(s2, tid, now, true);
    GrantedKeepsId(s.jobs[id], ToCancelled, now);
    ShownQueued(s1, s');
  }

  /** So is the report of a container that has not reported yet. */
  lemma CompletionIsARun(c: Config, s: State, cid: ContainerID, res: RunnerResult, now: Time) returns (s': State)
    requires JobsOk(c, s.jobs, s.enqueues, s.clock, s.finished) && s.clock <= now
    requires cid in s.containers && s.containers[cid].supervisor == Waiting && s.containers[cid].spec.jobID == res.jobID
    ensures Leads(c, s, s') && Shown(s') == CompleteSpec(c.webhookWired, Shown(s), res, now).0
    ensures cid in s'.containers && s'.containers[cid].supervisor == Gone
  {
    hide Leads, JobsOk;
    Stay(c, s);
    Then(c, s, s, Report(cid, res));
    s' := DoReport(s, cid, res);
    ShownSupervisor(s, cid, Received(s.jobs, res, s.clock));
    if s'.containers[cid].supervisor.Saving? {
      JobsAreFiled(c, s, res.jobID);
      s' := CompletionWrites(c, s, s', cid, res, now);
    }
  }

  lemma CompletionWrites(c: Config, s: State, s1: State, cid: ContainerID, res: RunnerResult, now: Time)
    returns (s': State)
    requires Leads(c, s, s1) && cid in s1.containers && s1.clock <= now
    requires res.jobID != "" && res.jobID in s1.jobs && s1.jobs[res.jobID].id == res.jobID
    requires s1.containers[cid].supervisor == Saving(s1.jobs[res.jobID], res, s1.clock)
    requires Apply(s1.jobs[res.jobID], Verdict(res), s1.clock).Ok?
    ensures Leads(c, s, s')
    ensures Shown(s') == CompleteSpec(c.webhookWired, Shown(s1), res, now).0
    ensures cid in s'.containers && s'.containers[cid].supervisor == Gone
  {
    hide Leads, After, ValidRun;
    Then(c, s, s1, Tick(now - s1.clock));
    var s2 := s1.(clock := now);
    var row := Granted(s1.jobs[res.jobID], Verdict(res), now);
    Then(c, s, s2, SaveCompletion(cid, now, true));
    s' := DoSaveCompletion(c, s2, cid, now, true);
    ShownSupervisor(Update(s2, row), cid, s'.containers[cid].supervisor);
    if s'.containers[cid].supervisor.Notifying? {
      Then(c, s, s', Notify(cid));
      ShownNotify(s', cid);
      s' := DoNotify(s', cid);
    }
  }

  lemma {:induction false} Joined(c: Config, s: State, xs: seq<Step>, ys: seq<Step>)
    requires ValidRun(c, s, xs) && ValidRun(c, After(c, s, xs), ys)
    ensures ValidRun(c, s, xs + ys) && After(c, s, xs + ys) == After(c, After(c, s, xs), ys)
    decreases |xs|
  {
    if xs == [] {
      assert xs + ys == ys;
    } else {
      assert (xs + ys)[1..] == xs[1..] + ys;
      Joined(c, Do(c, s, xs[0]), xs[1..], ys);
    }
  }

  lemma LeadsTo(c: Config, s: State, s1: State, s2: State)
    requires Leads(c, s, s1) && Leads(c, s1, s2)
    ensures Leads(c, s, s2)
  {
    var xs :| ValidRun(c, s, xs) && After(c, s, xs) == s1;
    var ys :| ValidRun(c, s1, ys) && After(c, s1, ys) == s2;
    Joined(c, s, xs, ys);
  }
}
