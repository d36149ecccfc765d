/** The theorems about all runs of the job lifecycle. */
module JobTheorems {
  import opened JobDomain
  import opened JobProtocol
  import opened JobInvariant
  import opened JobFrames

  // ---- the concurrency caps ----

  /** The jobs of u that the per-user check let through and that never had a terminal row. */
  ghost function AdmittedFor(ths: Threads, finished: set<JobID>, u: UserID): set<JobID> {
    set id | id in ths && ths[id].input.userID == u && ths[id].passedUser && id !in finished
  }

  ghost function AdmittedAll(ths: Threads, finished: set<JobID>): set<JobID> {
    set id | id in ths && ths[id].passedGlobal && id !in finished
  }

  ghost predicate CapsOk(c: Config, ths: Threads, finished: set<JobID>) {
    && (c.maxPerUser > 0 ==> forall u :: |AdmittedFor(ths, finished, u)| <= c.maxPerUser)
    && (c.maxGlobal > 0 ==> |AdmittedAll(ths, finished)| <= c.maxGlobal)
  }

  lemma SmallerSet<T>(a: set<T>, b: set<T>)
    requires a <= b
    ensures |a| <= |b|
  {
    if a != b {
      assert b == a + (b - a);
    }
  }

  /** A row whose job never finished is active, and belongs to the user of its request. */
  lemma UnfinishedIsActive(c: Config, s: State, id: JobID)
    requires Structure(c, s) && id in s.enqueues && id !in s.finished
    ensures id in s.jobs && s.jobs[id].IsActive() && s.jobs[id].userID == s.enqueues[id].input.userID
  {
    ThreadIsOk(c, s, id);
  }

  /** Because a row is created before it is counted, everyone admitted so far is counted too. */
  lemma AdmittedAreCounted(c: Config, s: State, u: UserID)
    requires Structure(c, s)
    ensures forall id :: id in s.enqueues && id !in s.finished && s.enqueues[id].input.userID == u ==>
            id in ActiveFor(s.jobs, u)
    ensures forall id :: id in s.enqueues && id !in s.finished ==> id in ActiveAll(s.jobs)
  {
    forall id | id in s.enqueues && id !in s.finished
      ensures id in ActiveAll(s.jobs) && (s.enqueues[id].input.userID == u ==> id in ActiveFor(s.jobs, u))
    {
      UnfinishedIsActive(c, s, id);
    }
  }

  /** One more thread passed the user check: all it was counted with fit under the cap. */
  lemma UserPassKeepsCaps(c: Config, ths: Threads, finished: set<JobID>, id: JobID, th: EnqueueThread,
                          active: set<JobID>)
    requires CapsOk(c, ths, finished) && id in ths
    requires th.input == ths[id].input && th.passedGlobal == ths[id].passedGlobal
    requires th.passedUser && c.maxPerUser > 0 ==> |active| <= c.maxPerUser || ths[id].passedUser
    requires forall i :: i in ths && i !in finished && ths[i].input.userID == th.input.userID ==> i in active
    ensures CapsOk(c, ths[id := th], finished)
  {
    var ths' := ths[id := th];
    forall u | c.maxPerUser > 0 ensures |AdmittedFor(ths', finished, u)| <= c.maxPerUser {
      if u == th.input.userID && th.passedUser && !ths[id].passedUser {
        SmallerSet(AdmittedFor(ths', finished, u), active);
      } else {
        SmallerSet(AdmittedFor(ths', finished, u), AdmittedFor(ths, finished, u));
      }
    }
    SmallerSet(AdmittedAll(ths', finished), AdmittedAll(ths, finished));
  }

  lemma GlobalPassKeepsCaps(c: Config, ths: Threads, finished: set<JobID>, id: JobID, th: EnqueueThread,
                            active: set<JobID>)
    requires CapsOk(c, ths, finished) && id in ths
    requires th.input == ths[id].input && th.passedUser == ths[id].passedUser
    requires th.passedGlobal && c.maxGlobal > 0 ==> |active| <= c.maxGlobal || ths[id].passedGlobal
    requires forall i :: i in ths && i !in finished ==> i in active
    ensures CapsOk(c, ths[id := th], finished)
  {
    var ths' := ths[id := th];
    forall u | c.maxPerUser > 0 ensures |AdmittedFor(ths', finished, u)| <= c.maxPerUser {
      SmallerSet(AdmittedFor(ths', finished, u), AdmittedFor(ths, finished, u));
    }
    if th.passedGlobal && !ths[id].passedGlobal {
      SmallerSet(AdmittedAll(ths', finished), active);
    } else {
      SmallerSet(AdmittedAll(ths', finished), AdmittedAll(ths, finished));
    }
  }

  lemma CountUserKeepsCaps(c: Config, s: State, id: JobID, ok: bool)
    requires Structure(c, s) && CapsOk(c, s.enqueues, s.finished) && AtPc(s, id, CountingUser)
    ensures CapsOk(c, DoCountUser(c, s, id, ok).enqueues, s.finished)
  {
    AdmittedAreCounted(c, s, s.enqueues[id].input.userID);
    UserPassKeepsCaps(c, s.enqueues, s.finished, id, DoCountUser(c, s, id, ok).enqueues[id],
                      ActiveFor(s.jobs, s.enqueues[id].input.userID));
  }

  lemma CountGlobalKeepsCaps(c: Config, s: State, id: JobID, ok: bool)
    requires Structure(c, s) && CapsOk(c, s.enqueues, s.finished) && AtPc(s, id, CountingGlobal)
    ensures CapsOk(c, DoCountGlobal(c, s, id, ok).enqueues, s.finished)
  {
    AdmittedAreCounted(c, s, s.enqueues[id].input.userID);
    GlobalPassKeepsCaps(c, s.enqueues, s.finished, id, DoCountGlobal(c, s, id, ok).enqueues[id], ActiveAll(s.jobs));
  }

  lemma NoNewPassKeepsCaps(c: Config, ths: Threads, ths': Threads, finished: set<JobID>, finished': set<JobID>)
    requires CapsOk(c, ths, finished) && finished <= finished'
    requires NoNewPass(ths, ths') && ThreadsGrow(ths, ths')
    ensures CapsOk(c, ths', finished')
  {
    forall u | c.maxPerUser > 0 ensures |AdmittedFor(ths', finished', u)| <= c.maxPerUser {
      SmallerSet(AdmittedFor(ths', finished', u), AdmittedFor(ths, finished, u));
    }
    SmallerSet(AdmittedAll(ths', finished'), AdmittedAll(ths, finished));
  }

  lemma StepKeepsCaps(c: Config, s: State, a: Step)
    requires Structure(c, s) && CapsOk(c, s.enqueues, s.finished) && Enabled(c, s, a)
    ensures CapsOk(c, Do(c, s, a).enqueues, Do(c, s, a).finished)
  {
    hide Structure, CapsOk, ThreadsGrow, NoNewPass;
    if a.CountUser? {
      CountUserKeepsCaps(c, s, a.id, a.ok);
    } else if a.CountGlobal? {
      CountGlobalKeepsCaps(c, s, a.id, a.ok);
    } else {
      StructureIsBare(c, s);
      StepGrowsThreads(c, s, a);
      OnlyCountingPasses(c, s, a);
      StepGrowsHistory(c, s, a);
      NoNewPassKeepsCaps(c, s.enqueues, Do(c, s, a).enqueues, s.finished, Do(c, s, a).finished);
    }
  }

  lemma {:induction false} RunKeepsCaps(c: Config, s: State, steps: seq<Step>)
    requires Structure(c, s) && CapsOk(c, s.enqueues, s.finished) && ValidRun(c, s, steps)
    ensures CapsOk(c, After(c, s, steps).enqueues, After(c, s, steps).finished)
    decreases |steps|
  {
    hide Structure, Do, Enabled, CapsOk;
    if steps != [] {
      StepKeepsStructure(c, s, steps[0]);
      StepKeepsCaps(c, s, steps[0]);
      RunKeepsCaps(c, Do(c, s, steps[0]), steps[1..]);
    }
  }

  // ---- history, stated on the run itself ----

  /** Some state of the run, the first and last included, stores a terminal row for id. */
  ghost predicate EverTerminal(c: Config, s: State, steps: seq<Step>, id: JobID)
    requires ValidRun(c, s, steps)
    decreases |steps|
  {
    || (id in s.jobs && s.jobs[id].IsTerminal())
    || (steps != [] && EverTerminal(c, Do(c, s, steps[0]), steps[1..], id))
  }

  /** Some state of the run stores exactly this row. */
  ghost predicate EverStored(c: Config, s: State, steps: seq<Step>, row: JobRow)
    requires ValidRun(c, s, steps)
    decreases |steps|
  {
    || (row.id in s.jobs && s.jobs[row.id] == row)
    || (steps != [] && EverStored(c, Do(c, s, steps[0]), steps[1..], row))
  }

  lemma TerminalIsFinished(c: Config, s: State, id: JobID)
    requires Structure(c, s) && id in s.jobs && s.jobs[id].IsTerminal()
    ensures id in s.finished
  {
    ThreadIsOk(c, s, id);
  }

  /** The history variable says what it is meant to say. */
  lemma {:induction false} FinishedIsEverTerminal(c: Config, s: State, steps: seq<Step>, id: JobID)
    requires Structure(c, s) && ValidRun(c, s, steps)
    ensures id in After(c, s, steps).finished <==> id in s.finished || EverTerminal(c, s, steps, id)
    decreases |steps|
  {
    hide Structure, Do, Enabled;
    if id in s.jobs && s.jobs[id].IsTerminal() {
      TerminalIsFinished(c, s, id);
    }
    if steps != [] {
      var s' := Do(c, s, steps[0]);
      StepGrowsHistory(c, s, steps[0]);
      StepKeepsStructure(c, s, steps[0]);
      FinishedIsEverTerminal(c, s', steps[1..], id);
      if id in s'.finished && id !in s.finished {
        assert EverTerminal(c, s', steps[1..], id);
      }
    }
  }

  lemma InitIsFine(c: Config, start: Time)
    ensures Structure(c, Init(start)) && CapsOk(c, Init(start).enqueues, Init(start).finished)
  {
    forall u ensures |AdmittedFor(map[], {}, u)| == 0 {
      assert AdmittedFor(map[], {}, u) == {};
    }
    assert AdmittedAll(map[], {}) == {};
  }

  /** The rows of u that are running at the end of a run from an empty store and were never terminal in it. */
  ghost function RunningFor(c: Config, start: Time, steps: seq<Step>, u: UserID): set<JobID>
    requires ValidRun(c, Init(start), steps)
  {
    var s := After(c, Init(start), steps);
    set id | id in s.jobs && s.jobs[id].userID == u && s.jobs[id].status == Running
        && !EverTerminal(c, Init(start), steps, id)
  }

  ghost function RunningAll(c: Config, start: Time, steps: seq<Step>): set<JobID>
    requires ValidRun(c, Init(start), steps)
  {
    var s := After(c, Init(start), steps);
    set id | id in s.jobs && s.jobs[id].status == Running && !EverTerminal(c, Init(start), steps, id)
  }

  lemma RunningWasAdmitted(c: Config, s: State, id: JobID)
    requires Structure(c, s) && id in s.jobs && s.jobs[id].status == Running
    ensures id in s.enqueues && s.enqueues[id].passedUser && s.enqueues[id].passedGlobal
    ensures s.enqueues[id].input.userID == s.jobs[id].userID
  {
    ThreadIsOk(c, s, id);
  }

  /** The per-user cap holds in every interleaving for the rows that never left the active statuses. */
  lemma PerUserCapHolds(c: Config, start: Time, steps: seq<Step>, u: UserID)
    requires ValidRun(c, Init(start), steps) && c.maxPerUser > 0
    ensures |RunningFor(c, start, steps, u)| <= c.maxPerUser
  {
    var s := After(c, Init(start), steps);
    InitIsFine(c, start);
    RunKeepsStructure(c, Init(start), steps);
    RunKeepsCaps(c, Init(start), steps);
    forall id | id in RunningFor(c, start, steps, u) ensures id in AdmittedFor(s.enqueues, s.finished, u) {
      RunningWasAdmitted(c, s, id);
      FinishedIsEverTerminal(c, Init(start), steps, id);
    }
    SmallerSet(RunningFor(c, start, steps, u), AdmittedFor(s.enqueues, s.finished, u));
  }

  lemma GlobalCapHolds(c: Config, start: Time, steps: seq<Step>)
    requires ValidRun(c, Init(start), steps) && c.maxGlobal > 0
    ensures |RunningAll(c, start, steps)| <= c.maxGlobal
  {
    var s := After(c, Init(start), steps);
    InitIsFine(c, start);
    RunKeepsStructure(c, Init(start), steps);
    RunKeepsCaps(c, Init(start), steps);
    forall id | id in RunningAll(c, start, steps) ensures id in AdmittedAll(s.enqueues, s.finished) {
      RunningWasAdmitted(c, s, id);
      FinishedIsEverTerminal(c, Init(start), steps, id);
    }
    SmallerSet(RunningAll(c, start, steps), AdmittedAll(s.enqueues, s.finished));
  }
}
