/** The GitHub webhook handler: a cache of delivery ids that evicts what has aged out, and the
    deletions it guards. */
module ReplayCache {
  type DeliveryID = string
  type Time = int
  type InstallationID = int

  /** Ten minutes, in nanoseconds. */
  const REPLAY_WINDOW: Time := 10 * 60 * 1_000_000_000

  type Seen = map<DeliveryID, Time>

  function Evicted(seen: Seen, now: Time): Seen {
    map k | k in seen && now - seen[k] <= REPLAY_WINDOW :: seen[k]
  }

  /** One call on the evicting cache: the cache afterwards, and whether the id was a replay. */
  function Ask(seen: Seen, id: DeliveryID, now: Time): (Seen, bool) {
    if id == "" then (seen, false)
    else
      var kept := Evicted(seen, now);
      if id in kept then (kept, true) else (kept[id := now], false)
  }

  /** One call on a log that never forgets: the time each id was last accepted. */
  function AskLog(log: Seen, id: DeliveryID, now: Time): (Seen, bool) {
    if id == "" then (log, false)
    else if id in log && now - log[id] <= REPLAY_WINDOW then (log, true)
    else (log[id := now], false)
  }

  /** The cache in plain terms. An id accepted at t is a replay up to ten minutes later, to the nanosecond;
      a call without an id is never one and leaves no trace; otherwise what is older than ten minutes is
      forgotten, the rest stays as it was, and a new id is remembered at this time. */
  lemma AskMeans(seen: Seen, id: DeliveryID, now: Time)
    ensures var (seen', replay) := Ask(seen, id, now);
            && (replay <==> id != "" && id in seen && now <= seen[id] + 600_000_000_000)
            && (id == "" ==> seen' == seen)
            && (id != "" ==>
                  && (forall k :: k in seen' <==> k == id || (k in seen && now <= seen[k] + 600_000_000_000))
                  && (forall k :: k in seen' && (k != id || replay) ==> seen'[k] == seen[k])
                  && (!replay ==> seen'[id] == now))
  {
  }

  /** From its acceptance on, an id that nobody asks for again answers as a clock would. */
  lemma TenMinutes(seen: Seen, id: DeliveryID, t: Time, later: Time)
    requires id != "" && !Ask(seen, id, t).1
    ensures Ask(Ask(seen, id, t).0, id, later).1 <==> later <= t + 600_000_000_000
    ensures AskLog(AskLog(seen, id, t).0, id, later).1 <==> later <= t + 600_000_000_000
  {
  }

  datatype Call = Call(id: DeliveryID, now: Time)

  predicate NonDecreasing(start: Time, calls: seq<Call>) {
    && (forall i :: 0 <= i < |calls| ==> start <= calls[i].now)
    && (forall i, j :: 0 <= i < j < |calls| ==> calls[i].now <= calls[j].now)
  }

  function Answers(seen: Seen, calls: seq<Call>): seq<bool>
    decreases |calls|
  {
    if calls == [] then []
    else [Ask(seen, calls[0].id, calls[0].now).1] + Answers(Ask(seen, calls[0].id, calls[0].now).0, calls[1..])
  }

  function LogAnswers(log: Seen, calls: seq<Call>): seq<bool>
    decreases |calls|
  {
    if calls == [] then []
    else [AskLog(log, calls[0].id, calls[0].now).1] + LogAnswers(AskLog(log, calls[0].id, calls[0].now).0, calls[1..])
  }

  /** The cache is the log without entries that had aged out by some time not after `now`. */
  ghost predicate Refines(seen: Seen, log: Seen, now: Time) {
    && (forall k :: k in seen ==> k in log && seen[k] == log[k] && seen[k] <= now)
    && (forall k :: k in log && k !in seen ==> now - log[k] > REPLAY_WINDOW)
  }

  lemma AskRefines(seen: Seen, log: Seen, before: Time, id: DeliveryID, now: Time)
    requires Refines(seen, log, before) && before <= now
    ensures Ask(seen, id, now).1 == AskLog(log, id, now).1
    ensures Refines(Ask(seen, id, now).0, AskLog(log, id, now).0, now)
  {
  }

  /** Forgetting changes no answer: for calls in time order the cache decides as the log does. */
  lemma {:induction false} CacheDecidesAsLog(seen: Seen, log: Seen, start: Time, calls: seq<Call>)
    requires Refines(seen, log, start) && NonDecreasing(start, calls)
    ensures Answers(seen, calls) == LogAnswers(log, calls)
    decreases |calls|
  {
    if calls != [] {
      var (id, now) := (calls[0].id, calls[0].now);
      AskRefines(seen, log, start, id, now);
      assert forall i :: 0 <= i < |calls[1..]| ==> calls[1..][i] == calls[i + 1];
      CacheDecidesAsLog(Ask(seen, id, now).0, AskLog(log, id, now).0, now, calls[1..]);
    }
  }

  lemma {:induction false} AnswersLength(seen: Seen, log: Seen, calls: seq<Call>)
    ensures |Answers(seen, calls)| == |LogAnswers(log, calls)| == |calls|
    decreases |calls|
  {
    if calls != [] {
      AnswersLength(Ask(seen, calls[0].id, calls[0].now).0, AskLog(log, calls[0].id, calls[0].now).0, calls[1..]);
    }
  }

  // ---- calls in any time order ----

  /** Calls entering the cache at these times, one id each. */
  function Zip(ids: seq<DeliveryID>, ts: seq<Time>): (calls: seq<Call>)
    requires |ids| == |ts|
    ensures |calls| == |ts| && forall i :: 0 <= i < |ts| ==> calls[i] == Call(ids[i], ts[i])
  {
    seq(|ts|, i requires 0 <= i < |ts| => Call(ids[i], ts[i]))
  }

  /** The call at i evicts what was accepted at k, while the call at j, entering later, carries a time
      that is still inside the window of k. */
  predicate Overtakes(ts: seq<Time>, k: nat, i: nat, j: nat) {
    k < i < j < |ts| && ts[j] - ts[k] <= REPLAY_WINDOW < ts[i] - ts[k]
  }

  ghost predicate NoneOvertakes(ts: seq<Time>) {
    forall k, i, j :: !Overtakes(ts, k, i, j)
  }

  /** After calls at the times in past: the cache agrees with the log, and what it lacks was evicted by
      a call after the one that accepted it. */
  ghost predicate Explained(seen: Seen, log: Seen, past: seq<Time>) {
    && (forall x :: x in seen ==> x in log && seen[x] == log[x])
    && (forall x :: x in log ==> exists k :: AcceptedAt(seen, log, past, x, k))
  }

  ghost predicate AcceptedAt(seen: Seen, log: Seen, past: seq<Time>, x: DeliveryID, k: nat)
    requires x in log
  {
    && k < |past| && past[k] == log[x]
    && (x !in seen ==> exists i :: EvictedBy(past, k, i))
  }

  predicate EvictedBy(past: seq<Time>, k: nat, i: nat) {
    k < i < |past| && past[i] - past[k] > REPLAY_WINDOW
  }

  lemma AskExplained(seen: Seen, log: Seen, past: seq<Time>, id: DeliveryID, now: Time)
    requires Explained(seen, log, past) && NoneOvertakes(past + [now])
    ensures Ask(seen, id, now).1 == AskLog(log, id, now).1
    ensures Explained(Ask(seen, id, now).0, AskLog(log, id, now).0, past + [now])
  {
    var past' := past + [now];
    if id in log && id !in seen {
      var k :| AcceptedAt(seen, log, past, id, k);
      var i :| EvictedBy(past, k, i);
      assert !Overtakes(past', k, i, |past|);
    }
    var seen', log' := Ask(seen, id, now).0, AskLog(log, id, now).0;
    forall x | x in log' ensures exists k :: AcceptedAt(seen', log', past', x, k) {
      if x == id && id != "" && !AskLog(log, id, now).1 {
        assert AcceptedAt(seen', log', past', x, |past|);
      } else {
        var k :| AcceptedAt(seen, log, past, x, k);
        StillAccepted(seen, log, seen', log', past, now, x, k);
      }
    }
  }

  lemma StillAccepted(seen: Seen, log: Seen, seen': Seen, log': Seen, past: seq<Time>, now: Time, x: DeliveryID, k: nat)
    requires x in log && x in log' && log'[x] == log[x] && AcceptedAt(seen, log, past, x, k)
    requires x in seen && x !in seen' ==> now - log[x] > REPLAY_WINDOW
    requires x !in seen ==> x !in seen'
    ensures AcceptedAt(seen', log', past + [now], x, k)
  {
    var past' := past + [now];
    if x !in seen {
      var i :| EvictedBy(past, k, i);
      assert EvictedBy(past', k, i);
    } else if x !in seen' {
      assert EvictedBy(past', k, |past|);
    }
  }

  lemma {:induction false} ExplainedAnswers(seen: Seen, log: Seen, past: seq<Time>, ids: seq<DeliveryID>, ts: seq<Time>)
    requires |ids| == |ts| && Explained(seen, log, past) && NoneOvertakes(past + ts)
    ensures Answers(seen, Zip(ids, ts)) == LogAnswers(log, Zip(ids, ts))
    decreases |ts|
  {
    if ts != [] {
      var id, now, calls := ids[0], ts[0], Zip(ids, ts);
      assert calls[1..] == Zip(ids[1..], ts[1..]);
      forall k, i, j ensures !Overtakes(past + [now], k, i, j) {
        assert !Overtakes(past + ts, k, i, j);
      }
      AskExplained(seen, log, past, id, now);
      assert past + [now] + ts[1..] == past + ts;
      ExplainedAnswers(Ask(seen, id, now).0, AskLog(log, id, now).0, past + [now], ids[1..], ts[1..]);
    }
  }

  // ---- an overtaking call tells the two apart ----

  function Calls(seen: Seen, calls: seq<Call>): Seen
    decreases |calls|
  {
    if calls == [] then seen else Calls(Ask(seen, calls[0].id, calls[0].now).0, calls[1..])
  }

  function LogCalls(log: Seen, calls: seq<Call>): Seen
    decreases |calls|
  {
    if calls == [] then log else LogCalls(AskLog(log, calls[0].id, calls[0].now).0, calls[1..])
  }

  /** The answer to a call is what the state left by the calls before it says. */
  lemma {:induction false} AnswerAt(seen: Seen, log: Seen, calls: seq<Call>, j: nat)
    requires j < |calls|
    ensures |Answers(seen, calls)| == |LogAnswers(log, calls)| == |calls|
    ensures Answers(seen, calls)[j] == Ask(Calls(seen, calls[..j]), calls[j].id, calls[j].now).1
    ensures LogAnswers(log, calls)[j] == AskLog(LogCalls(log, calls[..j]), calls[j].id, calls[j].now).1
    decreases |calls|
  {
    AnswersLength(seen, log, calls);
    if j > 0 {
      assert calls[..j][1..] == calls[1..][..j - 1];
      AnswerAt(Ask(seen, calls[0].id, calls[0].now).0, AskLog(log, calls[0].id, calls[0].now).0, calls[1..], j - 1);
    }
  }

  /** Calls without an id leave no trace. */
  lemma {:induction false} Idle(seen: Seen, log: Seen, calls: seq<Call>)
    requires forall i :: 0 <= i < |calls| ==> calls[i].id == ""
    ensures Calls(seen, calls) == seen && LogCalls(log, calls) == log
    decreases |calls|
  {
    if calls != [] {
      Idle(seen, log, calls[1..]);
    }
  }

  lemma {:induction false} CallsConcat(seen: Seen, log: Seen, xs: seq<Call>, ys: seq<Call>)
    ensures Calls(seen, xs + ys) == Calls(Calls(seen, xs), ys)
    ensures LogCalls(log, xs + ys) == LogCalls(LogCalls(log, xs), ys)
    decreases |xs|
  {
    if xs == [] {
      assert xs + ys == ys;
    } else {
      assert (xs + ys)[1..] == xs[1..] + ys;
      CallsConcat(Ask(seen, xs[0].id, xs[0].now).0, AskLog(log, xs[0].id, xs[0].now).0, xs[1..], ys);
    }
  }

  /** From n idle calls and one with an id. */
  lemma IdleThenOne(seen: Seen, log: Seen, calls: seq<Call>, one: Call)
    requires forall i :: 0 <= i < |calls| ==> calls[i].id == ""
    ensures Calls(seen, calls + [one]) == Ask(seen, one.id, one.now).0
    ensures LogCalls(log, calls + [one]) == AskLog(log, one.id, one.now).0
  {
    CallsConcat(seen, log, calls, [one]);
    Idle(seen, log, calls);
    assert [one][1..] == [];
  }

  /** Id "a" enters at k and again at j, id "b" at i, and nobody else has an id. */
  function Tell(n: nat, k: nat, i: nat, j: nat): (ids: seq<DeliveryID>)
    ensures |ids| == n
  {
    seq(n, x => if x == k || x == j then "a" else if x == i then "b" else "")
  }

  /** The states left by the calls up to and including i. */
  lemma UpToEviction(ts: seq<Time>, k: nat, i: nat, j: nat, calls: seq<Call>)
    requires Overtakes(ts, k, i, j) && calls == Zip(Tell(|ts|, k, i, j), ts)
    ensures Calls(map[], calls[..i + 1]) == map["b" := ts[i]]
    ensures LogCalls(map[], calls[..i + 1]) == map["a" := ts[k], "b" := ts[i]]
  {
    hide Ask, AskLog, Calls, LogCalls;
    var upToK, between := calls[..k] + [calls[k]], calls[k + 1..i] + [calls[i]];
    var s1, l1 := AfterAccept(ts[k]);
    var s2, l2 := AfterEviction(ts[k], ts[i]);
    IdleThenOne(map[], map[], calls[..k], calls[k]);
    IdleThenOne(s1, l1, calls[k + 1..i], calls[i]);
    CallsConcat(map[], map[], upToK, between);
    assert calls[..i + 1] == upToK + between;
  }

  lemma OvertakingTells(ts: seq<Time>, k: nat, i: nat, j: nat)
    requires Overtakes(ts, k, i, j)
    ensures Answers(map[], Zip(Tell(|ts|, k, i, j), ts)) != LogAnswers(map[], Zip(Tell(|ts|, k, i, j), ts))
  {
    hide Ask, AskLog, Calls, LogCalls, Answers, LogAnswers;
    var calls := Zip(Tell(|ts|, k, i, j), ts);
    UpToEviction(ts, k, i, j, calls);
    Idle(map["b" := ts[i]], map["a" := ts[k], "b" := ts[i]], calls[i + 1..j]);
    assert calls[..j] == calls[..i + 1] + calls[i + 1..j];
    CallsConcat(map[], map[], calls[..i + 1], calls[i + 1..j]);
    AnswerAt(map[], map[], calls, j);
    ToldApart(ts[k], ts[i], ts[j]);
  }

  lemma AfterAccept(t: Time) returns (seen: Seen, log: Seen)
    ensures seen == Ask(map[], "a", t).0 == map["a" := t] && log == AskLog(map[], "a", t).0 == map["a" := t]
  {
    assert Evicted(map[], t) == map[];
    seen, log := map["a" := t], map["a" := t];
  }

  lemma AfterEviction(t: Time, u: Time) returns (seen: Seen, log: Seen)
    requires u - t > REPLAY_WINDOW
    ensures seen == Ask(map["a" := t], "b", u).0 == map["b" := u]
    ensures log == AskLog(map["a" := t], "b", u).0 == map["a" := t, "b" := u]
  {
    assert Evicted(map["a" := t], u) == map[];
    seen, log := map["b" := u], map["a" := t, "b" := u];
  }

  lemma ToldApart(t: Time, u: Time, v: Time)
    requires v - t <= REPLAY_WINDOW
    ensures !Ask(map["b" := u], "a", v).1 && AskLog(map["a" := t, "b" := u], "a", v).1
  {
  }

  /** The exact condition on the times at which calls enter: whatever their ids, the cache answers as
      the log does, if and only if no call is overtaken. Non-decreasing times are the usual case of it. */
  lemma SameAnswersExactly(ts: seq<Time>)
    ensures (forall ids: seq<DeliveryID> | |ids| == |ts| ::
            Answers(map[], Zip(ids, ts)) == LogAnswers(map[], Zip(ids, ts)))
       <==> NoneOvertakes(ts)
    ensures (forall i, j :: 0 <= i < j < |ts| ==> ts[i] <= ts[j]) ==> NoneOvertakes(ts)
  {
    if NoneOvertakes(ts) {
      forall ids: seq<DeliveryID> | |ids| == |ts|
        ensures Answers(map[], Zip(ids, ts)) == LogAnswers(map[], Zip(ids, ts))
      {
        assert [] + ts == ts;
        ExplainedAnswers(map[], map[], [], ids, ts);
      }
    } else {
      var k, i, j :| Overtakes(ts, k, i, j);
      OvertakingTells(ts, k, i, j);
    }
  }

  /** After a call with an id, everything remembered lies inside the window. */
  lemma OnlyTheWindowIsRemembered(seen: Seen, id: DeliveryID, now: Time)
    requires id != ""
    ensures forall k :: k in Ask(seen, id, now).0 ==> now - Ask(seen, id, now).0[k] <= REPLAY_WINDOW
    ensures id in Ask(seen, id, now).0
  {
  }

  /** While id is remembered as accepted at t, calls within the window of t are replays. */
  lemma {:induction false} RememberedIsRejected(seen: Seen, start: Time, calls: seq<Call>, id: DeliveryID, t: Time,
                                                j: nat)
    requires NonDecreasing(start, calls) && id != "" && id in seen && seen[id] == t
    requires j < |calls| && calls[j].id == id && calls[j].now - t <= REPLAY_WINDOW
    ensures |Answers(seen, calls)| == |calls| && Answers(seen, calls)[j]
    decreases |calls|
  {
    AnswersLength(seen, seen, calls);
    var next := Ask(seen, calls[0].id, calls[0].now).0;
    if j > 0 {
      assert calls[0].now <= calls[j].now;
      assert forall i :: 0 <= i < |calls[1..]| ==> calls[1..][i] == calls[i + 1];
      RememberedIsRejected(next, calls[0].now, calls[1..], id, t, j - 1);
    }
  }

  /** Two accepted deliveries of one id are more than the window apart. */
  lemma {:induction false} AcceptedAreApart(seen: Seen, start: Time, calls: seq<Call>, i: nat, j: nat)
    requires NonDecreasing(start, calls) && i < j < |calls| && calls[i].id == calls[j].id != ""
    requires |Answers(seen, calls)| == |calls| && !Answers(seen, calls)[i] && !Answers(seen, calls)[j]
    ensures calls[j].now - calls[i].now > REPLAY_WINDOW
    decreases |calls|
  {
    var next := Ask(seen, calls[0].id, calls[0].now).0;
    AnswersLength(next, next, calls[1..]);
    assert forall k :: 0 <= k < |calls[1..]| ==> calls[1..][k] == calls[k + 1];
    assert forall k :: 0 <= k < |calls[1..]| ==> Answers(next, calls[1..])[k] == Answers(seen, calls)[k + 1];
    if i > 0 {
      AcceptedAreApart(next, calls[0].now, calls[1..], i - 1, j - 1);
    } else if calls[j].now - calls[0].now <= REPLAY_WINDOW {
      RememberedIsRejected(next, calls[0].now, calls[1..], calls[0].id, calls[0].now, j - 1);
    }
  }

  // ---- the handler ----

  datatype Installation = Installation(userID: string, accountLogin: string, repos: seq<string>, createdAt: Time)

  type Installs = map<InstallationID, Installation>

  /** What a request says once its body and headers have been read. */
  datatype Request = Request(signed: bool, delivery: DeliveryID, event: string, action: string,
                             installation: InstallationID)

  datatype Reply = Unauthorized | Accepted

  /** The state the handler works on: its cache and the stored installations. */
  datatype Hub = Hub(seen: Seen, installs: Installs)

  /** `deletes` says whether the store carries out a deletion; a failure is not reported to anyone. */
  function HandleSpec(h: Hub, r: Request, now: Time, deletes: bool): (Hub, Reply) {
    if !r.signed then (h, Unauthorized)
    else
      var (seen', replay) := Ask(h.seen, r.delivery, now);
      if replay then (h.(seen := seen'), Accepted)
      else if r.event == "installation" && r.action == "deleted"
      then (Hub(seen', if deletes then h.installs - {r.installation} else h.installs), Accepted)
      else (h.(seen := seen'), Accepted)
  }

  class WebhookHandler {
    var seen: map<DeliveryID, Time>
    var installs: map<InstallationID, Installation>

    constructor (installs: Installs)
      ensures this.installs == installs && seen == map[]
    {
      this.installs := installs;
      seen := map[];
    }

    function State(): Hub
      reads this
    {
      Hub(seen, installs)
    }

    method AlreadyDelivered(id: DeliveryID, now: Time) returns (dup: bool)
      modifies this`seen
      ensures dup <==> id != "" && id in old(seen) && now <= old(seen)[id] + 600_000_000_000
      ensures (seen, dup) == Ask(old(seen), id, now)
    {
      if id == "" {
        return false;
      }
      var todo := seen.Keys;
      while todo != {}
        invariant todo <= seen.Keys
        invariant seen == map k | k in old(seen) && (k in todo || now - old(seen)[k] <= REPLAY_WINDOW) :: old(seen)[k]
        decreases todo
      {
        var k :| k in todo;
        todo := todo - {k};
        if now - seen[k] > REPLAY_WINDOW {
          seen := seen - {k};
        }
      }
      assert seen == Evicted(old(seen), now);
      if id in seen {
        return true;
      }
      seen := seen[id := now];
      return false;
    }

    method Handle(r: Request, now: Time, deletes: bool) returns (reply: Reply)
      modifies this
      ensures reply == if r.signed then Accepted else Unauthorized
      ensures var replay := r.delivery != "" && r.delivery in old(seen)
                            && now <= old(seen)[r.delivery] + 600_000_000_000;
              var deletion := r.signed && r.event == "installation" && r.action == "deleted";
              installs == if deletion && !replay && deletes then old(installs) - {r.installation} else old(installs)
      ensures (State(), reply) == HandleSpec(old(State()), r, now, deletes)
    {
      if !r.signed {
        return Unauthorized;
      }
      var dup := AlreadyDelivered(r.delivery, now);
      if dup {
        return Accepted;
      }
      if r.event == "installation" {
        if r.action == "deleted" {
          if deletes {
            installs := installs - {r.installation};
          }
        }
      }
      return Accepted;
    }

    /** Storing an installation: on conflict everything but the creation time is replaced. */
    method Upsert(id: InstallationID, i: Installation)
      modifies this`installs
      ensures id !in old(installs) ==> installs == old(installs)[id := i]
      ensures id in old(installs) ==>
                var kept := old(installs)[id].createdAt;
                installs == old(installs)[id := Installation(i.userID, i.accountLogin, i.repos, kept)]
      ensures installs == Stored(old(installs), id, i)
    {
      if id in installs {
        installs := installs[id := i.(createdAt := installs[id].createdAt)];
      } else {
        installs := installs[id := i];
      }
    }
  }

  function Stored(m: Installs, id: InstallationID, i: Installation): Installs {
    if id in m then m[id := i.(createdAt := m[id].createdAt)] else m[id := i]
  }

  datatype Event =
    | Install(id: InstallationID, row: Installation)
    | Deliver(req: Request, now: Time, deletes: bool)

  function React(h: Hub, e: Event): Hub {
    match e
    case Install(id, row) => h.(installs := Stored(h.installs, id, row))
    case Deliver(req, now, deletes) => HandleSpec(h, req, now, deletes).0
  }

  function ReactAll(h: Hub, es: seq<Event>): Hub
    decreases |es|
  {
    if es == [] then h else ReactAll(React(h, es[0]), es[1..])
  }

  predicate WithinWindow(es: seq<Event>, t: Time) {
    forall i :: 0 <= i < |es| && es[i].Deliver? ==> es[i].now - t <= REPLAY_WINDOW
  }

  /** Within the window of its acceptance an id stays remembered, whatever else arrives. */
  lemma {:induction false} StaysRemembered(h: Hub, es: seq<Event>, id: DeliveryID, t: Time)
    requires id != "" && id in h.seen && h.seen[id] == t
    requires WithinWindow(es, t)
    ensures id in ReactAll(h, es).seen && ReactAll(h, es).seen[id] == t
    decreases |es|
  {
    if es != [] {
      assert forall i :: 0 <= i < |es[1..]| ==> es[1..][i] == es[i + 1];
      StaysRemembered(React(h, es[0]), es[1..], id, t);
    }
  }

  /** A delivery that was accepted acts at most once per window: after it, and after anything that
      happens inside the window, a replay of its id leaves the installations as they are. So an
      installation stored again after its deletion survives every such replay, and so does one whose
      deletion the store failed to carry out: sending that delivery again does not help. */
  lemma ReplayDeletesNothing(h: Hub, first: Request, t: Time, done: bool, es: seq<Event>,
                             again: Request, now: Time, deletes: bool)
    requires first.signed && first.delivery != "" && again.delivery == first.delivery
    requires !Ask(h.seen, first.delivery, t).1
    requires WithinWindow(es, t) && now - t <= REPLAY_WINDOW
    ensures var h' := ReactAll(HandleSpec(h, first, t, done).0, es);
            HandleSpec(h', again, now, deletes).0.installs == h'.installs
  {
    StaysRemembered(HandleSpec(h, first, t, done).0, es, first.delivery, t);
  }

  /** Only replays of this delivery arrive. */
  predicate ReplaysOnly(es: seq<Event>, id: DeliveryID) {
    forall i :: 0 <= i < |es| ==> es[i].Deliver? && es[i].req.delivery == id
  }

  lemma {:induction false} ReplaysLeaveInstalls(h: Hub, es: seq<Event>, id: DeliveryID, t: Time)
    requires id != "" && id in h.seen && h.seen[id] == t && ReplaysOnly(es, id) && WithinWindow(es, t)
    ensures ReactAll(h, es).installs == h.installs
    decreases |es|
  {
    if es != [] {
      assert forall i :: 0 <= i < |es[1..]| ==> es[1..][i] == es[i + 1];
      ReplaysLeaveInstalls(React(h, es[0]), es[1..], id, t);
    }
  }

  /** An installation stored after an accepted delivery is there, as stored, after every replay of that
      delivery inside its window. */
  lemma StoredAgainSurvives(h: Hub, first: Request, t: Time, done: bool, id: InstallationID, row: Installation,
                            replays: seq<Event>)
    requires first.signed && first.delivery != "" && !Ask(h.seen, first.delivery, t).1
    requires ReplaysOnly(replays, first.delivery) && WithinWindow(replays, t)
    ensures var h' := ReactAll(React(HandleSpec(h, first, t, done).0, Install(id, row)), replays);
            && id in h'.installs && h'.installs[id].userID == row.userID
            && h'.installs[id].accountLogin == row.accountLogin && h'.installs[id].repos == row.repos
  {
    ReplaysLeaveInstalls(React(HandleSpec(h, first, t, done).0, Install(id, row)), replays, first.delivery, t);
  }

  /** The delivery is signed, asks for a deletion and is no replay. */
  predicate AsksToDelete(h: Hub, r: Request, now: Time) {
    && r.signed && r.event == "installation" && r.action == "deleted"
    && (r.delivery == "" || r.delivery !in h.seen || now > h.seen[r.delivery] + 600_000_000_000)
  }

  /** An installation disappears exactly if a signed, fresh "installation deleted" delivery names it and
      the store carries the deletion out; the id counts as seen whether it does or not. */
  lemma DeletesExactly(h: Hub, r: Request, now: Time, deletes: bool)
    ensures var h' := HandleSpec(h, r, now, deletes).0;
            && (forall i :: i in h'.installs ==> i in h.installs && h'.installs[i] == h.installs[i])
            && (forall i :: i in h.installs ==>
                  (i !in h'.installs <==> i == r.installation && AsksToDelete(h, r, now) && deletes))
            && (r.signed && r.delivery != "" ==> r.delivery in h'.seen)
            && (!r.signed ==> h' == h && HandleSpec(h, r, now, deletes).1 == Unauthorized)
            && (r.signed ==> HandleSpec(h, r, now, deletes).1 == Accepted)
  {
  }
}
