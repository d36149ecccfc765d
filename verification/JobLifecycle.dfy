/** What a row, a request, a container and a webhook call can go through in any run. */
module JobLifecycle {
  import opened JobDomain
  import opened JobProtocol
  import opened JobInvariant
  import opened JobFrames
  import opened JobTheorems
  import opened JobsRepo

  ghost predicate Reachable(c: Config, s: State) {
    exists start, steps :: ValidRun(c, Init(start), steps) && After(c, Init(start), steps) == s
  }

  lemma ReachableIsStructured(c: Config, s: State)
    requires Reachable(c, s)
    ensures Structure(c, s)
  {
    var start, steps :| ValidRun(c, Init(start), steps) && After(c, Init(start), steps) == s;
    InitIsFine(c, start);
    RunKeepsStructure(c, Init(start), steps);
  }

  lemma {:induction false} RunGrows(c: Config, s: State, steps: seq<Step>)
    requires Structure(c, s) && ValidRun(c, s, steps)
    ensures ThreadsGrow(s.enqueues, After(c, s, steps).enqueues)
    ensures s.jobs.Keys <= After(c, s, steps).jobs.Keys
    decreases |steps|
  {
    hide Structure, Do, Enabled;
    if steps != [] {
      StepFacts(c, s, steps[0]);
      RunGrows(c, Do(c, s, steps[0]), steps[1..]);
    }
  }

  // ---- rows ----

  /** Every stored row is well formed, carries only times that have passed, and is filed under its own id. */
  lemma RowsAreWellFormed(c: Config, s: State, id: JobID)
    requires Reachable(c, s) && id in s.jobs
    ensures s.jobs[id].WellFormed() && s.jobs[id].StampedBy(s.clock) && s.jobs[id].id == id
  {
    ReachableIsStructured(c, s);
    ThreadIsOk(c, s, id);
  }

  /** No run removes a row or changes what it was created with. */
  lemma IdentityNeverChanges(c: Config, s: State, steps: seq<Step>, id: JobID)
    requires Reachable(c, s) && ValidRun(c, s, steps) && id in s.jobs
    ensures id in After(c, s, steps).jobs && After(c, s, steps).jobs[id].SameIdentity(s.jobs[id])
  {
    ReachableIsStructured(c, s);
    RunGrows(c, s, steps);
    RunKeepsStructure(c, s, steps);
    ThreadIsOk(c, s, id);
    ThreadIsOk(c, After(c, s, steps), id);
  }

  // ---- leaving a terminal status ----

  /** The one way out of a terminal status: the last Update of the request that created the row. */
  lemma RevivalExactly(c: Config, s: State, a: Step, id: JobID)
    requires Structure(c, s) && Enabled(c, s, a) && id in s.jobs && s.jobs[id].IsTerminal()
    ensures id in Do(c, s, a).jobs
    ensures !Do(c, s, a).jobs[id].IsTerminal() <==> a.SaveRunning? && a.id == id && a.ok
  {
    hide Structure, Do, Enabled;
    StepRow(c, s, a, id);
    WrittenIs(c, s, a);
  }

  ghost predicate Revives(c: Config, s: State, a: Step, id: JobID)
    requires Enabled(c, s, a)
  {
    && id in s.jobs && s.jobs[id].IsTerminal()
    && id in Do(c, s, a).jobs && !Do(c, s, a).jobs[id].IsTerminal()
  }

  /** How often the row of id leaves a terminal status in a run. */
  ghost function Revivals(c: Config, s: State, steps: seq<Step>, id: JobID): nat
    requires ValidRun(c, s, steps)
    decreases |steps|
  {
    if steps == [] then 0
    else (if Revives(c, s, steps[0], id) then 1 else 0) + Revivals(c, Do(c, s, steps[0]), steps[1..], id)
  }

  ghost predicate RequestEnded(s: State, id: JobID) {
    id in s.enqueues && s.enqueues[id].pc.Ended?
  }

  lemma RevivalEndsTheRequest(c: Config, s: State, a: Step, id: JobID)
    requires Structure(c, s) && Enabled(c, s, a) && Revives(c, s, a, id)
    ensures !RequestEnded(s, id) && RequestEnded(Do(c, s, a), id)
  {
    hide Structure;
    RevivalExactly(c, s, a, id);
  }

  /** A row leaves a terminal status at most once in any run, and not at all once its request has ended. */
  lemma {:induction false} RevivedAtMostOnce(c: Config, s: State, steps: seq<Step>, id: JobID)
    requires Structure(c, s) && ValidRun(c, s, steps)
    ensures Revivals(c, s, steps, id) <= if RequestEnded(s, id) then 0 else 1
    decreases |steps|
  {
    hide Structure, Do, Enabled;
    if steps != [] {
      var a := steps[0];
      StepFacts(c, s, a);
      RevivedAtMostOnce(c, Do(c, s, a), steps[1..], id);
      if Revives(c, s, a, id) {
        RevivalEndsTheRequest(c, s, a, id);
      }
    }
  }

  /** Without a revival, a row that was ever terminal ends the run terminal. */
  lemma {:induction false} UnrevivedStaysTerminal(c: Config, s: State, steps: seq<Step>, id: JobID)
    requires Structure(c, s) && ValidRun(c, s, steps)
    requires EverTerminal(c, s, steps, id) && Revivals(c, s, steps, id) == 0
    ensures id in After(c, s, steps).jobs && After(c, s, steps).jobs[id].IsTerminal()
    decreases |steps|
  {
    hide Structure, Do, Enabled;
    if steps != [] {
      var a := steps[0];
      StepFacts(c, s, a);
      UnrevivedStaysTerminal(c, Do(c, s, a), steps[1..], id);
    }
  }

  /** All running rows of u at the end of a run, and those of them that were revived on the way. */
  ghost function AllRunningFor(s: State, u: UserID): set<JobID> {
    set id | id in s.jobs && s.jobs[id].userID == u && s.jobs[id].status == Running
  }

  ghost function RevivedFor(c: Config, start: Time, steps: seq<Step>, u: UserID): set<JobID>
    requires ValidRun(c, Init(start), steps)
  {
    set id | id in AllRunningFor(After(c, Init(start), steps), u) && Revivals(c, Init(start), steps, id) == 1
  }

  /** A row is revived only out of a terminal status. */
  lemma {:induction false} RevivedWasTerminal(c: Config, s: State, steps: seq<Step>, id: JobID)
    requires ValidRun(c, s, steps) && Revivals(c, s, steps, id) > 0
    ensures EverTerminal(c, s, steps, id)
    decreases |steps|
  {
    hide Do, Enabled;
    if steps != [] && !Revives(c, s, steps[0], id) {
      RevivedWasTerminal(c, Do(c, s, steps[0]), steps[1..], id);
    }
  }

  /** A row that ends a run running either was never terminal in it, or was revived in it, not both. */
  lemma RunningEndsKeptOrRevived(c: Config, start: Time, steps: seq<Step>, id: JobID)
    requires ValidRun(c, Init(start), steps) && id in After(c, Init(start), steps).jobs
    requires After(c, Init(start), steps).jobs[id].status == Running
    ensures EverTerminal(c, Init(start), steps, id) <==> Revivals(c, Init(start), steps, id) == 1
  {
    InitIsFine(c, start);
    RevivedAtMostOnce(c, Init(start), steps, id);
    if EverTerminal(c, Init(start), steps, id) && Revivals(c, Init(start), steps, id) == 0 {
      UnrevivedStaysTerminal(c, Init(start), steps, id);
    }
    if Revivals(c, Init(start), steps, id) == 1 {
      RevivedWasTerminal(c, Init(start), steps, id);
    }
  }

  /** The running rows of a user are those never terminal, of which there are at most as many as the cap
      allows, and the revived ones. So the cap is exceeded exactly if the two together exceed it. */
  lemma RunningIsKeptAndRevived(c: Config, start: Time, steps: seq<Step>, u: UserID)
    requires ValidRun(c, Init(start), steps)
    ensures var running := AllRunningFor(After(c, Init(start), steps), u);
            var kept, revived := RunningFor(c, start, steps, u), RevivedFor(c, start, steps, u);
            && running == kept + revived && |running| == |kept| + |revived|
            && (c.maxPerUser > 0 ==> |kept| <= c.maxPerUser)
            && (|running| > c.maxPerUser <==> |kept| + |revived| > c.maxPerUser)
  {
    var running := AllRunningFor(After(c, Init(start), steps), u);
    var kept, revived := RunningFor(c, start, steps, u), RevivedFor(c, start, steps, u);
    forall id | id in running ensures id in kept <==> id !in revived {
      RunningEndsKeptOrRevived(c, start, steps, id);
    }
    assert running == kept + revived && kept !! revived;
    if c.maxPerUser > 0 {
      PerUserCapHolds(c, start, steps, u);
    }
  }

  ghost function RevivedAll(c: Config, start: Time, steps: seq<Step>): set<JobID>
    requires ValidRun(c, Init(start), steps)
  {
    set id | id in RowsWith(After(c, Init(start), steps).jobs, Running) && Revivals(c, Init(start), steps, id) == 1
  }

  /** The same for all users together. */
  lemma AllRunningIsKeptAndRevived(c: Config, start: Time, steps: seq<Step>)
    requires ValidRun(c, Init(start), steps)
    ensures var running := RowsWith(After(c, Init(start), steps).jobs, Running);
            var kept, revived := RunningAll(c, start, steps), RevivedAll(c, start, steps);
            && running == kept + revived && |running| == |kept| + |revived|
            && (c.maxGlobal > 0 ==> |kept| <= c.maxGlobal)
            && (|running| > c.maxGlobal <==> |kept| + |revived| > c.maxGlobal)
  {
    var running := RowsWith(After(c, Init(start), steps).jobs, Running);
    var kept, revived := RunningAll(c, start, steps), RevivedAll(c, start, steps);
    forall id | id in running ensures id in kept <==> id !in revived {
      RunningEndsKeptOrRevived(c, start, steps, id);
    }
    assert running == kept + revived && kept !! revived;
    if c.maxGlobal > 0 {
      GlobalCapHolds(c, start, steps);
    }
  }
}
