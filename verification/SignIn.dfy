/** GitHub sign-in: look the identity up or mint a user for it, store the identity, open a session.
    The callback as one call, and any number of callbacks interleaved at repository calls. */
module SignIn {
  import opened Wrappers
  import opened JobDomain

  type GitHubID = int

  datatype Identity = Identity(userID: UserID, login: string, email: string)

  datatype GitHubUser = GitHubUser(id: GitHubID, login: string, email: string)

  datatype Session = Session(gitHubID: GitHubID, userID: UserID)

  type Identities = map<GitHubID, Identity>

  predicate Bound(m: Identities, u: UserID) {
    exists g | g in m :: m[g].userID == u
  }

  /** The insert with its conflict rule: a known GitHub id gets a new login and email and keeps its
      user; a new one is refused if the user already has an identity, for users are the primary key. */
  function Upserted(m: Identities, u: UserID, gh: GitHubUser): Result<Identities> {
    if gh.id in m then Ok(m[gh.id := m[gh.id].(login := gh.login, email := gh.email)])
    else if Bound(m, u) then Err(Conflict)
    else Ok(m[gh.id := Identity(u, gh.login, gh.email)])
  }

  // ---- one callback at a time ----

  class IdentitiesRepo {
    var rows: map<GitHubID, Identity>

    constructor ()
      ensures rows == map[]
    {
      rows := map[];
    }

    method ByGitHubID(id: GitHubID) returns (r: Option<Identity>)
      ensures r == if id in rows then Some(rows[id]) else None
    {
      r := if id in rows then Some(rows[id]) else None;
    }

    method Upsert(u: UserID, gh: GitHubUser) returns (err: Option<Error>)
      modifies this
      ensures gh.id in old(rows) ==>
                err == None && rows == old(rows)[gh.id := Identity(old(rows)[gh.id].userID, gh.login, gh.email)]
      ensures gh.id !in old(rows) && (exists g :: g in old(rows) && old(rows)[g].userID == u) ==>
                err == Some(Conflict) && rows == old(rows)
      ensures gh.id !in old(rows) && (forall g :: g in old(rows) ==> old(rows)[g].userID != u) ==>
                err == None && rows == old(rows)[gh.id := Identity(u, gh.login, gh.email)]
      ensures match Upserted(old(rows), u, gh)
              case Ok(m) => err == None && rows == m
              case Err(e) => err == Some(e) && rows == old(rows)
    {
      if gh.id in rows {
        rows := rows[gh.id := rows[gh.id].(login := gh.login, email := gh.email)];
        return None;
      }
      if Bound(rows, u) {
        return Some(Conflict);
      }
      rows := rows[gh.id := Identity(u, gh.login, gh.email)];
      return None;
    }
  }

  class OAuth {
    const identities: IdentitiesRepo
    var users: set<UserID>
    var sessions: seq<Session>

    constructor (identities: IdentitiesRepo)
      ensures this.identities == identities && users == {} && sessions == []
    {
      this.identities := identities;
      users, sessions := {}, [];
    }

    /** Served alone, a callback with a fresh user id opens its session for the user its GitHub id is
        bound to, which is the user it was bound to before if there was one. A call that fails ends it;
        what was done before that call stays done. */
    method Callback(gh: GitHubUser, newUserID: UserID, fault: Fault) returns (err: Option<Error>)
      requires !Bound(identities.rows, newUserID)
      modifies this, identities
      ensures err.None? <==> fault == NoFault || (fault == UserFails && gh.id in old(identities.rows))
      ensures users == if gh.id in old(identities.rows) || fault == LookupFails || fault == UserFails then old(users)
                       else old(users) + {newUserID}
      ensures err.Some? && fault != LoginFails ==> identities.rows == old(identities.rows)
      ensures err.None? || fault == LoginFails ==>
                var uid := if gh.id in old(identities.rows) then old(identities.rows)[gh.id].userID else newUserID;
                identities.rows == old(identities.rows)[gh.id := Identity(uid, gh.login, gh.email)]
      ensures sessions == if err.None? then old(sessions) + [Session(gh.id, identities.rows[gh.id].userID)]
                          else old(sessions)
    {
      if fault == LookupFails {
        return Some(Failure("lookup"));
      }
      var id := identities.ByGitHubID(gh.id);
      var uid: UserID;
      if id.Some? {
        uid := id.value.userID;
      } else {
        uid := newUserID;
        if fault == UserFails {
          return Some(Failure("user"));
        }
        users := users + {uid};
      }
      if fault == UpsertFails {
        return Some(Failure("upsert"));
      }
      err := identities.Upsert(uid, gh);
      if err.Some? {
        return err;
      }
      if fault == LoginFails {
        return Some(Failure("login"));
      }
      sessions := sessions + [Session(gh.id, uid)];
      return None;
    }
  }

  /** Which of the four storage calls fails, if one does. */
  datatype Fault = NoFault | LookupFails | UserFails | UpsertFails | LoginFails

  // ---- callbacks interleaved ----

  /** `found` says that the lookup saw the binding, `inserted` that the own insert made it. */
  datatype Pc = Minting | Upserting | LoggingIn(inserted: bool)

  datatype Thread = Thread(gh: GitHubUser, pc: Pc, found: bool, uid: UserID)

  /** An opened session together with how its callback got there. */
  datatype Outcome = Outcome(session: Session, found: bool, inserted: bool)

  datatype State = State(identities: Identities, users: set<UserID>, threads: map<nat, Thread>, outcomes: seq<Outcome>)

  datatype Step =
    | Lookup(tid: nat, gh: GitHubUser)
    | Mint(tid: nat, uid: UserID)
    | Upsert(tid: nat)
    | Login(tid: nat)
    | Abandon(tid: nat)

  /** Minted user ids are new. */
  predicate Enabled(s: State, a: Step) {
    match a
    case Lookup(tid, _) => tid !in s.threads
    case Mint(tid, uid) => tid in s.threads && s.threads[tid].pc == Minting && uid !in s.users
    case Upsert(tid) => tid in s.threads && s.threads[tid].pc == Upserting
    case Login(tid) => tid in s.threads && s.threads[tid].pc.LoggingIn?
    case Abandon(tid) => tid in s.threads
  }

  function Do(s: State, a: Step): State
    requires Enabled(s, a)
  {
    match a
    case Lookup(tid, gh) =>
      if gh.id in s.identities
      then s.(threads := s.threads[tid := Thread(gh, Upserting, true, s.identities[gh.id].userID)])
      else s.(threads := s.threads[tid := Thread(gh, Minting, false, "")])
    case Mint(tid, uid) =>
      s.(users := s.users + {uid}, threads := s.threads[tid := s.threads[tid].(pc := Upserting, uid := uid)])
    case Upsert(tid) =>
      var t := s.threads[tid];
      (match Upserted(s.identities, t.uid, t.gh)
       case Err(_) => s.(threads := s.threads - {tid})
       case Ok(m) => s.(identities := m, threads := s.threads[tid := t.(pc := LoggingIn(t.gh.id !in s.identities))]))
    case Login(tid) =>
      var t := s.threads[tid];
      s.(threads := s.threads - {tid},
         outcomes := s.outcomes + [Outcome(Session(t.gh.id, t.uid), t.found, t.pc.inserted)])
    case Abandon(tid) => s.(threads := s.threads - {tid})
  }

  predicate ValidRun(s: State, steps: seq<Step>)
    decreases |steps|
  {
    steps == [] || (Enabled(s, steps[0]) && ValidRun(Do(s, steps[0]), steps[1..]))
  }

  function After(s: State, steps: seq<Step>): State
    requires ValidRun(s, steps)
    decreases |steps|
  {
    if steps == [] then s else After(Do(s, steps[0]), steps[1..])
  }

  const EMPTY := State(map[], {}, map[], [])

  // ---- a binding is for ever ----

  lemma {:induction false} BindingIsForEver(s: State, steps: seq<Step>, g: GitHubID)
    requires ValidRun(s, steps) && g in s.identities
    ensures g in After(s, steps).identities && After(s, steps).identities[g].userID == s.identities[g].userID
    decreases |steps|
  {
    if steps != [] {
      BindingIsForEver(Do(s, steps[0]), steps[1..], g);
    }
  }

  // ---- whose session it is ----

  /** The outcome is for the bound user exactly if the binding was found or made by this callback. */
  predicate RightUser(m: Identities, g: GitHubID, u: UserID, found: bool, inserted: bool) {
    g in m && (m[g].userID == u <==> found || inserted)
  }

  ghost predicate ThreadOk(s: State, t: Thread) {
    match t.pc
    case Minting => !t.found
    case Upserting =>
      && t.uid in s.users
      && (if t.found then t.gh.id in s.identities && s.identities[t.gh.id].userID == t.uid
          else !Bound(s.identities, t.uid))
    case LoggingIn(inserted) =>
      && t.uid in s.users && RightUser(s.identities, t.gh.id, t.uid, t.found, inserted)
      && (!t.found && !inserted ==> !Bound(s.identities, t.uid))
  }

  /** A user id that was minted and not yet bound belongs to one callback only. */
  ghost predicate Loose(t: Thread) {
    !t.found && (t.pc == Upserting || t.pc == LoggingIn(false))
  }

  ghost predicate OutcomeOk(m: Identities, o: Outcome) {
    RightUser(m, o.session.gitHubID, o.session.userID, o.found, o.inserted)
  }

  ghost predicate Inv(s: State) {
    && (forall i :: 0 <= i < |s.outcomes| ==> OutcomeOk(s.identities, s.outcomes[i]))
    && (forall g :: g in s.identities ==> s.identities[g].userID in s.users)
    && (forall tid :: tid in s.threads ==> ThreadOk(s, s.threads[tid]))
    && (forall x, y :: x in s.threads && y in s.threads && x != y && Loose(s.threads[x]) ==>
        s.threads[x].uid != s.threads[y].uid || s.threads[y].pc == Minting)
  }

  /** A new binding for a user that had none leaves everyone else's standing as it is. */
  lemma UpsertKeepsInv(s: State, tid: nat)
    requires Inv(s) && Enabled(s, Upsert(tid))
    ensures Inv(Do(s, Upsert(tid)))
  {
    var t, s' := s.threads[tid], Do(s, Upsert(tid));
    assert ThreadOk(s, t);
    if Upserted(s.identities, t.uid, t.gh).Ok? {
      forall x | x in s'.threads ensures ThreadOk(s', s'.threads[x]) {
        assert ThreadOk(s, s.threads[x]);
      }
      forall i | 0 <= i < |s'.outcomes| ensures OutcomeOk(s'.identities, s'.outcomes[i]) {
        assert OutcomeOk(s.identities, s.outcomes[i]);
      }
    }
  }

  lemma StepKeepsInv(s: State, a: Step)
    requires Inv(s) && Enabled(s, a)
    ensures Inv(Do(s, a))
  {
    if a.Upsert? {
      UpsertKeepsInv(s, a.tid);
    } else if a.Login? {
      assert ThreadOk(s, s.threads[a.tid]);
    }
  }

  lemma {:induction false} RunKeepsInv(s: State, steps: seq<Step>)
    requires Inv(s) && ValidRun(s, steps)
    ensures Inv(After(s, steps))
    decreases |steps|
  {
    if steps != [] {
      StepKeepsInv(s, steps[0]);
      RunKeepsInv(Do(s, steps[0]), steps[1..]);
    }
  }

  /** In every interleaving an opened session is for the user the GitHub id is bound to exactly when
      the callback's lookup found the binding or its own insert made it. */
  lemma SessionsAreRight(steps: seq<Step>, i: nat)
    requires ValidRun(EMPTY, steps) && i < |After(EMPTY, steps).outcomes|
    ensures var s, o := After(EMPTY, steps), After(EMPTY, steps).outcomes[i];
            && o.session.gitHubID in s.identities
            && (s.identities[o.session.gitHubID].userID == o.session.userID <==> o.found || o.inserted)
  {
    RunKeepsInv(EMPTY, steps);
    assert OutcomeOk(After(EMPTY, steps).identities, After(EMPTY, steps).outcomes[i]);
  }

  /** A callback that looks up after the binding exists works for the bound user from then on: while it
      is under way its user is the bound one, and so is the session it opens. */
  lemma LaterLookupsAreRight(before: seq<Step>, tid: nat, gh: GitHubUser, later: seq<Step>)
    requires ValidRun(EMPTY, before) && gh.id in After(EMPTY, before).identities
    requires Enabled(After(EMPTY, before), Lookup(tid, gh))
    requires ValidRun(Do(After(EMPTY, before), Lookup(tid, gh)), later)
    requires forall i :: 0 <= i < |later| ==> later[i] != Login(tid) && later[i] != Abandon(tid)
    ensures var s, s' := After(EMPTY, before), After(Do(After(EMPTY, before), Lookup(tid, gh)), later);
            && tid in s'.threads && s'.threads[tid].uid == s.identities[gh.id].userID
            && gh.id in s'.identities && s'.identities[gh.id].userID == s.identities[gh.id].userID
            && (s'.threads[tid].pc.LoggingIn? ==>
                  |Do(s', Login(tid)).outcomes| == |s'.outcomes| + 1
                  && Do(s', Login(tid)).outcomes[|s'.outcomes|].session == Session(gh.id, s.identities[gh.id].userID))
  {
    var s := After(EMPTY, before);
    RunKeepsInv(EMPTY, before);
    StepKeepsInv(s, Lookup(tid, gh));
    FoundThreadKeepsUser(Do(s, Lookup(tid, gh)), later, tid);
    BindingIsForEver(Do(s, Lookup(tid, gh)), later, gh.id);
  }

  lemma {:induction false} FoundThreadKeepsUser(s: State, steps: seq<Step>, tid: nat)
    requires Inv(s) && ValidRun(s, steps) && tid in s.threads && s.threads[tid].found && s.threads[tid].pc != Minting
    requires forall i :: 0 <= i < |steps| ==> steps[i] != Login(tid) && steps[i] != Abandon(tid)
    ensures tid in After(s, steps).threads
    ensures After(s, steps).threads[tid].uid == s.threads[tid].uid
    ensures After(s, steps).threads[tid].gh == s.threads[tid].gh && After(s, steps).threads[tid].found
    decreases |steps|
  {
    if steps != [] {
      assert ThreadOk(s, s.threads[tid]);
      StepKeepsInv(s, steps[0]);
      assert forall i :: 0 <= i < |steps[1..]| ==> steps[1..][i] == steps[i + 1];
      FoundThreadKeepsUser(Do(s, steps[0]), steps[1..], tid);
    }
  }

  /** Two first callbacks of one GitHub id at the same time: both look up before either inserts, and
      the second to insert opens its session for a user the id is not bound to. */
  lemma FirstCallbacksCanCollide() returns (steps: seq<Step>)
    ensures ValidRun(EMPTY, steps)
    ensures var s := After(EMPTY, steps);
            |s.outcomes| == 1 && s.outcomes[0].session == Session(1, "v") && 1 in s.identities
                && s.identities[1].userID == "u"
  {
    var gh := GitHubUser(1, "octo", "");
    var s0 := EMPTY;
    var s1 := Do(s0, Lookup(0, gh));
    var s2 := Do(s1, Lookup(1, gh));
    var s3 := Do(s2, Mint(0, "u"));
    var s4 := Do(s3, Mint(1, "v"));
    var s5 := Do(s4, Upsert(0));
    assert 1 in s5.identities && s5.identities[1].userID == "u";
    var s6 := Do(s5, Upsert(1));
    var s7 := Do(s6, Login(1));
    steps := [Login(1)];
    assert ValidRun(s6, steps) && After(s6, steps) == s7 by { assert steps[1..] == []; }
    steps := Before(s5, Upsert(1), steps);
    steps := Before(s4, Upsert(0), steps);
    steps := Before(s3, Mint(1, "v"), steps);
    steps := Before(s2, Mint(0, "u"), steps);
    steps := Before(s1, Lookup(1, gh), steps);
    steps := Before(s0, Lookup(0, gh), steps);
  }

  lemma Before(s: State, a: Step, steps: seq<Step>) returns (all: seq<Step>)
    requires Enabled(s, a) && ValidRun(Do(s, a), steps)
    ensures ValidRun(s, all) && After(s, all) == After(Do(s, a), steps)
  {
    all := [a] + steps;
    assert all[1..] == steps;
  }
}
