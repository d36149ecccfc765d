/** The job entity: one stored row, the transitions of its status, and the
    in-memory object whose methods perform them. */
module JobDomain {
  import opened Wrappers

  datatype Error = NotFound | Conflict | InvalidState | InvalidInput | Failure(message: string)

  datatype Result<+T> = Ok(value: T) | Err(error: Error)

  type JobID = string
  type UserID = string
  type ContainerID = string
  type Time = int

  datatype Status = Queued | Running | Succeeded | Failed | Cancelled

  datatype SpecSource = SpecSource(kind: string, value: string) {
    predicate Valid() {
      value != "" && (kind == "inline" || kind == "path" || kind == "url")
    }
  }

  /** A stored job. The repository keeps and hands out copies, so a row is a value. */
  datatype JobRow = JobRow(
    id: JobID,
    userID: UserID,
    status: Status,
    repo: string,
    baseBranch: string,
    workBranch: string,
    spec: SpecSource,
    modelOverride: string,
    containerID: ContainerID,
    prURL: string,
    error: string,
    logPath: string,
    createdAt: Time,
    startedAt: Option<Time>,
    finishedAt: Option<Time>)
  {
    predicate IsTerminal() {
      status == Succeeded || status == Failed || status == Cancelled
    }

    /** The rows both counting queries range over. */
    predicate IsActive() {
      status == Queued || status == Running
    }

    /** What every stored row satisfies, whoever wrote it last. */
    predicate WellFormed() {
      && (finishedAt.Some? <==> IsTerminal())
      && (startedAt.None? ==> containerID == "")
      && (status == Queued ==> startedAt.None?)
      && (status == Running || status == Succeeded ==> startedAt.Some?)
      && (prURL != "" ==> status == Succeeded)
      && (error != "" ==> status == Failed)
      && (startedAt.Some? ==> createdAt <= startedAt.value)
      && (finishedAt.Some? ==> createdAt <= finishedAt.value)
      && (startedAt.Some? && finishedAt.Some? ==> startedAt.value <= finishedAt.value)
    }

    /** Every time the row records is at most t. */
    predicate StampedBy(t: Time) {
      && createdAt <= t
      && (startedAt.Some? ==> startedAt.value <= t)
      && (finishedAt.Some? ==> finishedAt.value <= t)
    }

    /** The fields no transition may touch. */
    predicate SameIdentity(other: JobRow) {
      && id == other.id
      && userID == other.userID
      && repo == other.repo
      && baseBranch == other.baseBranch
      && workBranch == other.workBranch
      && spec == other.spec
      && modelOverride == other.modelOverride
      && logPath == other.logPath
      && createdAt == other.createdAt
    }
  }

  function NewRow(id: JobID, userID: UserID, repo: string, baseBranch: string, workBranch: string,
                  spec: SpecSource, modelOverride: string, now: Time): JobRow
  {
    JobRow(id, userID, Queued, repo, baseBranch, workBranch, spec, modelOverride,
           "", "", "", "", now, None, None)
  }

  /** The five requests a row can receive; `Apply` says which are granted. */
  datatype Transition =
    | ToRunning(containerID: ContainerID)
    | ToSucceeded(prURL: string)
    | ToFailed(reason: string)
    | ToCancelled

  function Apply(r: JobRow, x: Transition, now: Time): Result<JobRow> {
    match x
    case ToRunning(cid) =>
      if r.status != Queued then Err(InvalidState)
      else Ok(r.(status := Running, containerID := cid, startedAt := Some(now)))
    case ToSucceeded(url) =>
      if r.status != Running then Err(InvalidState)
      else Ok(r.(status := Succeeded, prURL := url, finishedAt := Some(now)))
    case ToFailed(reason) =>
      if r.IsTerminal() then Err(InvalidState)
      else Ok(r.(status := Failed, error := reason, finishedAt := Some(now)))
    case ToCancelled =>
      if r.status != Queued && r.status != Running then Err(InvalidState)
      else Ok(r.(status := Cancelled, finishedAt := Some(now)))
  }

  /** The requests in order; a refused one leaves the row as it is. */
  function ApplyAll(r: JobRow, xs: seq<(Transition, Time)>): JobRow
    decreases |xs|
  {
    if xs == [] then r
    else
      var next := match Apply(r, xs[0].0, xs[0].1) case Ok(r') => r' case Err(_) => r;
      ApplyAll(next, xs[1..])
  }

  predicate TimesFrom(t: Time, xs: seq<(Transition, Time)>) {
    && (forall i :: 0 <= i < |xs| ==> t <= xs[i].1)
    && (forall i, j :: 0 <= i < j < |xs| ==> xs[i].1 <= xs[j].1)
  }

  /** What a call asking for x may have done to the object: all of it, or nothing and an error. */
  predicate Answered(before: JobRow, x: Transition, now: Time, err: Option<Error>, after: JobRow) {
    match Apply(before, x, now)
    case Ok(r) => err == None && after == r
    case Err(e) => err == Some(e) && after == before
  }

  /** A granted request keeps the identity, the well-formedness and the time order,
      and starts from a row that was not terminal. */
  lemma ApplyKeepsWellFormed(r: JobRow, x: Transition, now: Time)
    requires r.WellFormed() && r.StampedBy(now)
    ensures match Apply(r, x, now)
            case Ok(r') => r'.WellFormed() && r'.StampedBy(now) && r'.SameIdentity(r)
                           && r.IsActive() && (r'.IsTerminal() <==> !x.ToRunning?)
            case Err(e) => e == InvalidState
                           && (r.IsTerminal() || (x.ToRunning? && r.status == Running)
                               || (x.ToSucceeded? && r.status == Queued))
  {
  }

  /** Every field has one request that may write it, and the finish time is that of the request. */
  lemma EachFieldHasItsRequest(r: JobRow, x: Transition, now: Time)
    ensures Apply(r, x, now).Ok? ==>
              var r' := Apply(r, x, now).value;
              && (r'.containerID != r.containerID || r'.startedAt != r.startedAt ==>
                    x == ToRunning(r'.containerID) && r'.startedAt == Some(now))
              && (r'.prURL != r.prURL ==> x == ToSucceeded(r'.prURL))
              && (r'.error != r.error ==> x == ToFailed(r'.error))
              && (if x.ToRunning? then r'.finishedAt == r.finishedAt else r'.finishedAt == Some(now))
              && (x.ToRunning? ==> r.status == Queued && r'.status == Running)
              && (x.ToSucceeded? ==> r.status == Running && r'.status == Succeeded && r'.prURL == x.prURL)
              && (x.ToFailed? ==> r'.status == Failed && r'.error == x.reason)
              && (x.ToCancelled? ==> r'.status == Cancelled)
    ensures Apply(r, x, now).Err? ==> Apply(r, x, now) == Err(InvalidState)
  {
  }

  /** Taken alone, a row that is terminal stays as it is under every further request. */
  lemma {:induction false} TerminalIsAbsorbing(r: JobRow, xs: seq<(Transition, Time)>)
    requires r.IsTerminal()
    ensures ApplyAll(r, xs) == r
    decreases |xs|
  {
    if xs != [] {
      TerminalIsAbsorbing(r, xs[1..]);
    }
  }

  /** Any list of requests under a clock that does not go back leaves a well-formed row. */
  lemma {:induction false} LifecycleStaysWellFormed(r: JobRow, t: Time, xs: seq<(Transition, Time)>)
    requires r.WellFormed() && r.StampedBy(t) && TimesFrom(t, xs)
    ensures ApplyAll(r, xs).WellFormed() && ApplyAll(r, xs).SameIdentity(r)
    decreases |xs|
  {
    if xs != [] {
      var (x, now) := xs[0];
      ApplyKeepsWellFormed(r, x, now);
      var next := match Apply(r, x, now) case Ok(r') => r' case Err(_) => r;
      assert forall i :: 0 <= i < |xs[1..]| ==> xs[1..][i] == xs[i + 1];
      LifecycleStaysWellFormed(next, now, xs[1..]);
    }
  }

  /** The job object a use case holds while it runs. */
  class Job {
    const id: JobID
    const userID: UserID
    const repo: string
    const baseBranch: string
    const workBranch: string
    const spec: SpecSource
    const modelOverride: string
    const createdAt: Time
    var status: Status
    var containerID: ContainerID
    var prURL: string
    var error: string
    var logPath: string
    var startedAt: Option<Time>
    var finishedAt: Option<Time>

    /** The copy a repository stores. */
    function Row(): JobRow
      reads this
    {
      JobRow(id, userID, status, repo, baseBranch, workBranch, spec, modelOverride,
             containerID, prURL, error, logPath, createdAt, startedAt, finishedAt)
    }

    constructor (id: JobID, userID: UserID, repo: string, baseBranch: string, workBranch: string,
                 spec: SpecSource, modelOverride: string, now: Time)
      ensures Row() == JobRow(id, userID, Queued, repo, baseBranch, workBranch, spec, modelOverride,
                              "", "", "", "", now, None, None)
      ensures Row() == NewRow(id, userID, repo, baseBranch, workBranch, spec, modelOverride, now)
    {
      this.id, this.userID, this.repo := id, userID, repo;
      this.baseBranch, this.workBranch := baseBranch, workBranch;
      this.spec, this.modelOverride, this.createdAt := spec, modelOverride, now;
      status, containerID, prURL, error, logPath := Queued, "", "", "", "";
      startedAt, finishedAt := None, None;
    }

    constructor FromRow(r: JobRow)
      ensures Row() == r
    {
      id, userID, repo, baseBranch, workBranch := r.id, r.userID, r.repo, r.baseBranch, r.workBranch;
      spec, modelOverride, createdAt := r.spec, r.modelOverride, r.createdAt;
      status, containerID, prURL, error, logPath := r.status, r.containerID, r.prURL, r.error, r.logPath;
      startedAt, finishedAt := r.startedAt, r.finishedAt;
    }

    method MarkRunning(containerID: ContainerID, now: Time) returns (err: Option<Error>)
      modifies this
      ensures err == if old(status) == Queued then None else Some(InvalidState)
      ensures err.None? ==> Row() == old(Row()).(status := Running, containerID := containerID, startedAt := Some(now))
      ensures err.Some? ==> Row() == old(Row())
      ensures Answered(old(Row()), ToRunning(containerID), now, err, Row())
    {
      if status != Queued {
        return Some(InvalidState);
      }
      status := Running;
      this.containerID := containerID;
      startedAt := Some(now);
      return None;
    }

    method MarkSucceeded(prURL: string, now: Time) returns (err: Option<Error>)
      modifies this
      ensures err == if old(status) == Running then None else Some(InvalidState)
      ensures err.None? ==> Row() == old(Row()).(status := Succeeded, prURL := prURL, finishedAt := Some(now))
      ensures err.Some? ==> Row() == old(Row())
      ensures Answered(old(Row()), ToSucceeded(prURL), now, err, Row())
    {
      if status != Running {
        return Some(InvalidState);
      }
      status := Succeeded;
      this.prURL := prURL;
      finishedAt := Some(now);
      return None;
    }

    method MarkFailed(reason: string, now: Time) returns (err: Option<Error>)
      modifies this
      ensures err == if old(status) == Queued || old(status) == Running then None else Some(InvalidState)
      ensures err.None? ==> Row() == old(Row()).(status := Failed, error := reason, finishedAt := Some(now))
      ensures err.Some? ==> Row() == old(Row())
      ensures Answered(old(Row()), ToFailed(reason), now, err, Row())
    {
      if Row().IsTerminal() {
        return Some(InvalidState);
      }
      status := Failed;
      error := reason;
      finishedAt := Some(now);
      return None;
    }

    method MarkCancelled(now: Time) returns (err: Option<Error>)
      modifies this
      ensures err == if old(status) == Queued || old(status) == Running then None else Some(InvalidState)
      ensures err.None? ==> Row() == old(Row()).(status := Cancelled, finishedAt := Some(now))
      ensures err.Some? ==> Row() == old(Row())
      ensures Answered(old(Row()), ToCancelled, now, err, Row())
    {
      if status != Queued && status != Running {
        return Some(InvalidState);
      }
      status := Cancelled;
      finishedAt := Some(now);
      return None;
    }
  }
}
