/** API keys: minting stores a digest under a plaintext prefix, resolving looks the prefix up and
    compares digests. The digest is ideal: it matches the text it was made from and no other. */
module ApiKeys {
  import opened Wrappers
  import opened JobDomain

  type KeyID = string

  const PREFIX_LENGTH: nat := 8

  /** A freshly minted key still carries its plaintext; the storing wrapper replaces it. */
  datatype Hash = Raw(plain: string) | Digest(plain: string, salt: nat)

  predicate Matches(h: Hash, q: string) {
    h.Digest? && h.plain == q
  }

  datatype KeyRow = KeyRow(id: KeyID, userID: UserID, name: string, prefix: string, hash: Hash,
                           lastUsedAt: Option<Time>, createdAt: Time)

  type Keys = map<KeyID, KeyRow>

  function PrefixOf(plain: string): string
    requires |plain| >= PREFIX_LENGTH
  {
    plain[..PREFIX_LENGTH]
  }

  /** Every stored key holds a digest and is filed under its own id and the prefix of its plaintext. */
  ghost predicate Indexed(m: Keys) {
    forall id :: id in m ==>
      && m[id].id == id && m[id].hash.Digest?
      && |m[id].hash.plain| >= PREFIX_LENGTH && m[id].prefix == PrefixOf(m[id].hash.plain)
  }

  /** What a full scan over all keys finds. */
  ghost function Matching(m: Keys, q: string): set<KeyID> {
    set id | id in m && Matches(m[id].hash, q)
  }

  function Used(m: Keys, id: KeyID, at: Time): Keys {
    if id in m then m[id := m[id].(lastUsedAt := Some(at))] else m
  }

  // ---- the repositories ----

  class FakeAPIKeysRepo {
    var m: map<KeyID, KeyRow>

    constructor ()
      ensures m == map[]
    {
      m := map[];
    }

    method Create(k: KeyRow) returns (err: Option<Error>)
      modifies this
      ensures k.id in old(m) ==> err == Some(Conflict) && m == old(m)
      ensures k.id !in old(m) ==> err == None && m == old(m)[k.id := k]
    {
      if k.id in m {
        return Some(Conflict);
      }
      m := m[k.id := k];
      return None;
    }

    /** The keys with this prefix, in whatever order the map yields them. */
    method GetByPrefix(prefix: string) returns (out: seq<KeyRow>)
      requires Indexed(m)
      ensures forall i :: 0 <= i < |out| ==> out[i].id in m && m[out[i].id] == out[i] && out[i].prefix == prefix
      ensures forall id :: id in m && m[id].prefix == prefix ==> m[id] in out
    {
      out := [];
      var todo := m.Keys;
      while todo != {}
        invariant todo <= m.Keys
        invariant forall i :: 0 <= i < |out| ==> out[i].id in m && m[out[i].id] == out[i] && out[i].prefix == prefix
        invariant forall id :: id in m && id !in todo && m[id].prefix == prefix ==> m[id] in out
        decreases todo
      {
        var id :| id in todo;
        todo := todo - {id};
        if m[id].prefix == prefix {
          out := out + [m[id]];
        }
      }
    }

    method Delete(id: KeyID, u: UserID) returns (err: Option<Error>)
      modifies this
      ensures err == if id in old(m) && old(m)[id].userID == u then None else Some(NotFound)
      ensures m == if err.None? then old(m) - {id} else old(m)
      ensures (m, err) == RevokedFrom(old(m), id, u)
    {
      if id !in m || m[id].userID != u {
        return Some(NotFound);
      }
      m := m - {id};
      return None;
    }

    method RecordUsed(id: KeyID, at: Time) returns (err: Option<Error>)
      modifies this
      ensures err == if id in old(m) then None else Some(NotFound)
      ensures m == if id in old(m) then old(m)[id := old(m)[id].(lastUsedAt := Some(at))] else old(m)
      ensures m == Used(old(m), id, at)
    {
      if id !in m {
        return Some(NotFound);
      }
      m := m[id := m[id].(lastUsedAt := Some(at))];
      return None;
    }
  }

  /** The wrapper that digests before it stores. */
  class HashingRepo {
    const inner: FakeAPIKeysRepo

    constructor (inner: FakeAPIKeysRepo)
      ensures this.inner == inner
    {
      this.inner := inner;
    }

    method Create(k: KeyRow, salt: nat, digestErr: Option<Error>) returns (err: Option<Error>)
      modifies inner
      ensures digestErr.Some? ==> err == digestErr && inner.m == old(inner.m)
      ensures digestErr.None? && k.id in old(inner.m) ==> err == Some(Conflict) && inner.m == old(inner.m)
      ensures digestErr.None? && k.id !in old(inner.m) ==>
                err == None && inner.m == old(inner.m)[k.id := k.(hash := Digest(k.hash.plain, salt))]
    {
      if digestErr.Some? {
        return digestErr;
      }
      var clone := k.(hash := Digest(k.hash.plain, salt));
      err := inner.Create(clone);
    }
  }

  // ---- minting, revoking, resolving ----

  datatype MintEnv = MintEnv(plain: string, id: KeyID, now: Time, salt: nat, digestErr: Option<Error>)

  function MintedInto(m: Keys, u: UserID, name: string, e: MintEnv): (Keys, Option<Error>)
    requires |e.plain| >= PREFIX_LENGTH
  {
    if u == "" || name == "" then (m, Some(InvalidInput))
    else if e.digestErr.Some? then (m, e.digestErr)
    else if e.id in m then (m, Some(Conflict))
    else (m[e.id := KeyRow(e.id, u, name, PrefixOf(e.plain), Digest(e.plain, e.salt), None, e.now)], None)
  }

  function RevokedFrom(m: Keys, id: KeyID, u: UserID): (Keys, Option<Error>) {
    if id !in m || m[id].userID != u then (m, Some(NotFound)) else (m - {id}, None)
  }

  class MintAPIKey {
    const keys: HashingRepo

    constructor (keys: HashingRepo)
      ensures this.keys == keys
    {
      this.keys := keys;
    }

    /** The generator hands out a plaintext of at least eight characters and its first eight. */
    method Execute(u: UserID, name: string, env: MintEnv) returns (r: Result<string>)
      requires |env.plain| >= 8
      modifies keys.inner
      ensures r == if u == "" || name == "" then Err(InvalidInput)
                   else if env.digestErr.Some? then Err(env.digestErr.value)
                   else if env.id in old(keys.inner.m) then Err(Conflict)
                   else Ok(env.plain)
      ensures r.Err? ==> keys.inner.m == old(keys.inner.m)
      ensures r.Ok? ==>
                var row := KeyRow(env.id, u, name, env.plain[..8], Digest(env.plain, env.salt), None, env.now);
                keys.inner.m == old(keys.inner.m)[env.id := row]
      ensures keys.inner.m == MintedInto(old(keys.inner.m), u, name, env).0
      ensures match MintedInto(old(keys.inner.m), u, name, env).1
              case None => r == Ok(env.plain)
              case Some(x) => r == Err(x)
    {
      assert PREFIX_LENGTH == 8;
      if u == "" || name == "" {
        return Err(InvalidInput);
      }
      var plain, prefix := env.plain, env.plain[..PREFIX_LENGTH];
      var hash := Raw(plain);
      var k := KeyRow(env.id, u, name, prefix, hash, None, env.now);
      var err := keys.Create(k, env.salt, env.digestErr);
      if err.Some? {
        return Err(err.value);
      }
      return Ok(plain);
    }
  }

  class Resolver {
    const keys: FakeAPIKeysRepo

    constructor (keys: FakeAPIKeysRepo)
      ensures this.keys == keys
    {
      this.keys := keys;
    }

    /** Looking only at the keys with the right prefix finds a match exactly when a scan over all
        keys would; the key that matched is stamped and nothing else changes. */
    method ResolveBearer(q: string, now: Time) returns (owner: Option<UserID>)
      requires Indexed(keys.m)
      modifies keys
      ensures owner.Some? <==> Matching(old(keys.m), q) != {}
      ensures owner.Some? ==>
                exists id :: id in Matching(old(keys.m), q) && owner.value == old(keys.m)[id].userID
                    && keys.m == old(keys.m)[id := old(keys.m)[id].(lastUsedAt := Some(now))]
      ensures owner.None? ==> keys.m == old(keys.m)
      ensures Indexed(keys.m)
    {
      if |q| < PREFIX_LENGTH {
        return None;
      }
      var prefix := q[..PREFIX_LENGTH];
      var candidates := keys.GetByPrefix(prefix);
      var i := 0;
      while i < |candidates|
        invariant 0 <= i <= |candidates| && keys.m == old(keys.m)
        invariant forall k :: 0 <= k < i ==> !Matches(candidates[k].hash, q)
      {
        var k := candidates[i];
        if Matches(k.hash, q) {
          assert k.id in Matching(keys.m, q);
          var _ := keys.RecordUsed(k.id, now);
          return Some(k.userID);
        }
        i := i + 1;
      }
      forall id | id in keys.m && keys.m[id].prefix == prefix ensures !Matches(keys.m[id].hash, q) {
        assert keys.m[id] in candidates;
      }
      return None;
    }

    /** A bearer key that resolves wins; anything else falls back to the session. */
    method Resolve(header: string, session: Option<UserID>, now: Time) returns (owner: Option<UserID>)
      requires Indexed(keys.m)
      modifies keys
      ensures Indexed(keys.m)
      ensures forall q :: header == "Bearer " + q && Matching(old(keys.m), q) != {} ==>
                exists id :: id in Matching(old(keys.m), q) && owner == Some(old(keys.m)[id].userID)
      ensures (forall q :: header == "Bearer " + q ==> Matching(old(keys.m), q) == {}) ==> owner == session
      ensures !(BEARER <= header) || Matching(old(keys.m), header[|BEARER|..]) == {} ==>
              owner == session && keys.m == old(keys.m)
      ensures BEARER <= header && Matching(old(keys.m), header[|BEARER|..]) != {} ==>
                exists id :: id in Matching(old(keys.m), header[|BEARER|..]) && owner == Some(old(keys.m)[id].userID)
    {
      if BEARER <= header {
        owner := ResolveBearer(header[|BEARER|..], now);
        if owner.Some? {
          return owner;
        }
      }
      return session;
    }
  }

  const BEARER := "Bearer "

  // ---- whole histories ----

  datatype Op =
    | Mint(userID: UserID, name: string, env: MintEnv)
    | Revoke(id: KeyID, userID: UserID)
    | Use(q: string, matched: KeyID, now: Time)

  /** A use stamps one of the keys that match, whichever the map yields first. */
  ghost predicate ValidOp(m: Keys, op: Op) {
    match op
    case Mint(_, _, env) => |env.plain| >= PREFIX_LENGTH
    case Revoke(_, _) => true
    case Use(q, matched, _) => Matching(m, q) != {} ==> matched in Matching(m, q)
  }

  ghost function Perform(m: Keys, op: Op): Keys
    requires ValidOp(m, op)
  {
    match op
    case Mint(u, name, env) => MintedInto(m, u, name, env).0
    case Revoke(id, u) => RevokedFrom(m, id, u).0
    case Use(q, matched, now) => if Matching(m, q) == {} then m else Used(m, matched, now)
  }

  ghost predicate ValidOps(m: Keys, ops: seq<Op>)
    decreases |ops|
  {
    ops == [] || (ValidOp(m, ops[0]) && ValidOps(Perform(m, ops[0]), ops[1..]))
  }

  ghost function PerformAll(m: Keys, ops: seq<Op>): Keys
    requires ValidOps(m, ops)
    decreases |ops|
  {
    if ops == [] then m else PerformAll(Perform(m, ops[0]), ops[1..])
  }

  /** An account book that knows nothing of prefixes and digests: who was given which plaintext. */
  datatype Grant = Grant(userID: UserID, plain: string, name: string, createdAt: Time)

  function Booked(b: map<KeyID, Grant>, op: Op): map<KeyID, Grant> {
    match op
    case Mint(u, name, env) =>
      if u != "" && name != "" && env.digestErr.None? && env.id !in b then
        b[env.id := Grant(u, env.plain, name, env.now)]
      else b
    case Revoke(id, u) => if id in b && b[id].userID == u then b - {id} else b
    case Use(_, _, _) => b
  }

  function Book(b: map<KeyID, Grant>, ops: seq<Op>): map<KeyID, Grant>
    decreases |ops|
  {
    if ops == [] then b else Book(Booked(b, ops[0]), ops[1..])
  }

  ghost predicate Keeps(m: Keys, b: map<KeyID, Grant>) {
    && Indexed(m) && m.Keys == b.Keys
    && forall id :: id in m ==>
         && m[id].userID == b[id].userID && m[id].hash.plain == b[id].plain
         && m[id].name == b[id].name && m[id].createdAt == b[id].createdAt
  }

  lemma StepKeepsBook(m: Keys, b: map<KeyID, Grant>, op: Op)
    requires Keeps(m, b) && ValidOp(m, op)
    ensures Keeps(Perform(m, op), Booked(b, op))
  {
    if op.Use? {
      UseKeepsBook(m, b, op.matched, op.now);
    }
  }

  lemma UseKeepsBook(m: Keys, b: map<KeyID, Grant>, id: KeyID, at: Time)
    requires Keeps(m, b)
    ensures Keeps(Used(m, id, at), b)
  {
  }

  /** A use in plain terms: the key that matched is stamped, and nothing else changes. */
  lemma UseMeans(m: Keys, q: string, matched: KeyID, now: Time)
    requires ValidOp(m, Use(q, matched, now))
    ensures var m' := Perform(m, Use(q, matched, now));
            if exists id :: id in m && m[id].hash.Digest? && m[id].hash.plain == q
            then matched in m && m' == m[matched := m[matched].(lastUsedAt := Some(now))]
            else m' == m
  {
    if id :| id in m && m[id].hash.Digest? && m[id].hash.plain == q {
      assert id in Matching(m, q);
    }
    if id :| id in Matching(m, q) {
      assert m[id].hash.plain == q;
    }
  }

  /** A mint in plain terms: what is stored, and that nothing else changes. */
  lemma MintMeans(m: Keys, u: UserID, name: string, e: MintEnv)
    requires |e.plain| >= 8
    ensures var (m', err) := MintedInto(m, u, name, e);
            && (err.Some? ==> m' == m)
            && (err.None? ==>
                  && e.id !in m && e.id in m' && m' - {e.id} == m
                  && var k := m'[e.id];
                     && k.id == e.id && k.userID == u && k.name == name && k.createdAt == e.now && k.lastUsedAt == None
                     && k.prefix == e.plain[..8] && k.hash == Digest(e.plain, e.salt))
            && (err.None? <==> u != "" && name != "" && e.digestErr.None? && e.id !in m)
  {
    assert PREFIX_LENGTH == 8;
    var (m', err) := MintedInto(m, u, name, e);
    if err.None? {
      assert m' - {e.id} == m;
    }
  }

  lemma {:induction false} StoreKeepsBook(m: Keys, b: map<KeyID, Grant>, ops: seq<Op>)
    requires Keeps(m, b) && ValidOps(m, ops)
    ensures Keeps(PerformAll(m, ops), Book(b, ops))
    decreases |ops|
  {
    if ops != [] {
      StepKeepsBook(m, b, ops[0]);
      StoreKeepsBook(Perform(m, ops[0]), Booked(b, ops[0]), ops[1..]);
    }
  }

  /** No plaintext is handed out twice, and none that the book already has. */
  ghost predicate FreshPlaintexts(b: map<KeyID, Grant>, ops: seq<Op>) {
    && (forall i, j :: 0 <= i < j < |ops| && ops[i].Mint? && ops[j].Mint? ==> ops[i].env.plain != ops[j].env.plain)
    && (forall i, id :: 0 <= i < |ops| && ops[i].Mint? && id in b ==> ops[i].env.plain != b[id].plain)
  }

  ghost predicate OnePerPlaintext(b: map<KeyID, Grant>) {
    forall x, y :: x in b && y in b && b[x].plain == b[y].plain ==> x == y
  }

  lemma {:induction false} BookStaysUnique(b: map<KeyID, Grant>, ops: seq<Op>)
    requires OnePerPlaintext(b) && FreshPlaintexts(b, ops)
    ensures OnePerPlaintext(Book(b, ops))
    decreases |ops|
  {
    if ops != [] {
      FreshAfterOne(b, ops);
      BookStaysUnique(Booked(b, ops[0]), ops[1..]);
    }
  }

  lemma FreshAfterOne(b: map<KeyID, Grant>, ops: seq<Op>)
    requires ops != [] && FreshPlaintexts(b, ops)
    ensures FreshPlaintexts(Booked(b, ops[0]), ops[1..])
    ensures OnePerPlaintext(b) ==> OnePerPlaintext(Booked(b, ops[0]))
  {
    assert forall i :: 0 <= i < |ops[1..]| ==> ops[1..][i] == ops[i + 1];
  }

  /** Some live key was minted with this plaintext. */
  predicate Granted(b: map<KeyID, Grant>, q: string) {
    exists id | id in b :: b[id].plain == q
  }

  lemma MatchesAsBooked(m: Keys, b: map<KeyID, Grant>, q: string)
    requires Keeps(m, b)
    ensures Matching(m, q) != {} <==> Granted(b, q)
  {
    if Matching(m, q) != {} {
      var id :| id in Matching(m, q);
      assert id in b && b[id].plain == q;
    }
    if Granted(b, q) {
      var id :| id in b && b[id].plain == q;
      assert id in m;
      assert id in Matching(m, q);
    }
  }

  /** In every state reached by minting, revoking and resolving, the prefix lookup finds q exactly when
      some live key was minted with q, and then exactly one key matches and it belongs to that owner. */
  lemma ResolvesAsTheBookSays(ops: seq<Op>, q: string)
    requires ValidOps(map[], ops) && FreshPlaintexts(map[], ops)
    ensures var m, b := PerformAll(map[], ops), Book(map[], ops);
            && Indexed(m)
            && (Matching(m, q) != {} <==> Granted(b, q))
            && (forall id :: id in Matching(m, q) ==> id in b && m[id].userID == b[id].userID && Matching(m, q) == {id})
  {
    StoreKeepsBook(map[], map[], ops);
    BookStaysUnique(map[], ops);
    var m, b := PerformAll(map[], ops), Book(map[], ops);
    MatchesAsBooked(m, b, q);
    forall id | id in Matching(m, q) ensures id in b && Matching(m, q) == {id} {
      forall other | other in Matching(m, q) ensures other == id {
      }
    }
  }

  lemma {:induction false} BookNeverRegains(b: map<KeyID, Grant>, ops: seq<Op>, plain: string)
    requires forall id :: id in b ==> b[id].plain != plain
    requires forall i :: 0 <= i < |ops| && ops[i].Mint? ==> ops[i].env.plain != plain
    ensures forall id :: id in Book(b, ops) ==> Book(b, ops)[id].plain != plain
    decreases |ops|
  {
    if ops != [] {
      assert forall i :: 0 <= i < |ops[1..]| ==> ops[1..][i] == ops[i + 1];
      BookNeverRegains(Booked(b, ops[0]), ops[1..], plain);
    }
  }

  /** Every entry of the book was there before or comes from a mint. */
  lemma {:induction false} BookOrigin(b: map<KeyID, Grant>, ops: seq<Op>, id: KeyID)
    requires id in Book(b, ops)
    ensures (id in b && b[id] == Book(b, ops)[id])
         || exists i :: 0 <= i < |ops| && ops[i].Mint? && ops[i].env.plain == Book(b, ops)[id].plain
    decreases |ops|
  {
    if ops != [] {
      BookOrigin(Booked(b, ops[0]), ops[1..], id);
      if i :| 0 <= i < |ops[1..]| && ops[1..][i].Mint? && ops[1..][i].env.plain == Book(b, ops)[id].plain {
        assert ops[i + 1].Mint? && ops[i + 1].env.plain == Book(b, ops)[id].plain;
      }
    }
  }

  lemma {:induction false} BookConcat(b: map<KeyID, Grant>, xs: seq<Op>, ys: seq<Op>)
    ensures Book(b, xs + ys) == Book(Book(b, xs), ys)
    decreases |xs|
  {
    if xs == [] {
      assert xs + ys == ys;
    } else {
      assert (xs + ys)[1..] == xs[1..] + ys;
      BookConcat(Booked(b, xs[0]), xs[1..], ys);
    }
  }

  /** A plaintext whose key was revoked is in no later book. */
  lemma BookForgets(before: seq<Op>, id: KeyID, u: UserID, later: seq<Op>)
    requires FreshPlaintexts(map[], before + ([Revoke(id, u)] + later))
    requires id in Book(map[], before) && Book(map[], before)[id].userID == u
    ensures !Granted(Book(map[], before + ([Revoke(id, u)] + later)), Book(map[], before)[id].plain)
  {
    var rest := [Revoke(id, u)] + later;
    var all := before + rest;
    var b := Book(map[], before);
    var plain := b[id].plain;
    assert forall i :: 0 <= i < |before| ==> all[i] == before[i];
    assert FreshPlaintexts(map[], before);
    BookStaysUnique(map[], before);
    BookOrigin(map[], before, id);
    var k :| 0 <= k < |before| && before[k].Mint? && before[k].env.plain == plain;
    forall i | 0 <= i < |later| && later[i].Mint? ensures later[i].env.plain != plain {
      assert all[k] == before[k] && all[|before| + 1 + i] == later[i];
    }
    assert rest[1..] == later;
    BookConcat(map[], before, rest);
    BookNeverRegains(Booked(b, rest[0]), later, plain);
  }

  /** Once the key of a plaintext has been revoked, that plaintext never resolves again. */
  lemma RevokedNeverResolves(before: seq<Op>, id: KeyID, u: UserID, later: seq<Op>)
    requires ValidOps(map[], before + ([Revoke(id, u)] + later))
    requires FreshPlaintexts(map[], before + ([Revoke(id, u)] + later))
    requires ValidOps(map[], before) && RevokedFrom(PerformAll(map[], before), id, u).1.None?
    ensures Matching(PerformAll(map[], before + ([Revoke(id, u)] + later)),
            PerformAll(map[], before)[id].hash.plain) == {}
  {
    hide FreshPlaintexts;
    var all := before + ([Revoke(id, u)] + later);
    StoreKeepsBook(map[], map[], before);
    StoreKeepsBook(map[], map[], all);
    BookForgets(before, id, u, later);
    MatchesAsBooked(PerformAll(map[], all), Book(map[], all), PerformAll(map[], before)[id].hash.plain);
  }

  // ---- resolves interleaved with minting and revoking ----

  /** A resolve between its lookup, which hands out copies, and its comparison. */
  datatype Lookup = Lookup(q: string, candidates: Keys)

  /** The keys, the book beside them, and the resolves under way. */
  datatype State = State(keys: Keys, book: map<KeyID, Grant>, lookups: map<nat, Lookup>)

  datatype Step =
    | Change(op: Op)
    | LookUp(tid: nat, q: string)
    | Finish(tid: nat, matched: KeyID, now: Time)

  ghost predicate Enabled(s: State, a: Step) {
    match a
    case Change(op) => !op.Use? && ValidOp(s.keys, op)
    case LookUp(tid, _) => tid !in s.lookups
    case Finish(tid, matched, _) =>
      tid in s.lookups
      && (Matching(s.lookups[tid].candidates, s.lookups[tid].q) != {} ==>
            matched in Matching(s.lookups[tid].candidates, s.lookups[tid].q))
  }

  function WithPrefix(m: Keys, q: string): Keys {
    map id | id in m && |q| >= PREFIX_LENGTH && m[id].prefix == PrefixOf(q) :: m[id]
  }

  ghost function Do(s: State, a: Step): State
    requires Enabled(s, a)
  {
    match a
    case Change(op) => s.(keys := Perform(s.keys, op), book := Booked(s.book, op))
    case LookUp(tid, q) => s.(lookups := s.lookups[tid := Lookup(q, WithPrefix(s.keys, q))])
    case Finish(tid, matched, now) =>
      var l := s.lookups[tid];
      s.(keys := if Matching(l.candidates, l.q) == {} then s.keys else Used(s.keys, matched, now),
         lookups := s.lookups - {tid})
  }

  /** A resolve that finishes stamps the key it found, if that key is still there. */
  lemma FinishStamps(s: State, tid: nat, matched: KeyID, now: Time)
    requires Enabled(s, Finish(tid, matched, now))
    ensures var s' := Do(s, Finish(tid, matched, now));
            && s'.book == s.book && tid !in s'.lookups && s'.keys.Keys == s.keys.Keys
            && (forall id :: id in s.keys ==>
                  s'.keys[id] == if id == matched && Answer(s.lookups[tid], matched).Some?
                                 then s.keys[id].(lastUsedAt := Some(now)) else s.keys[id])
  {
  }

  /** What the resolve answers. */
  ghost function Answer(l: Lookup, matched: KeyID): Option<UserID> {
    if matched in Matching(l.candidates, l.q) then Some(l.candidates[matched].userID) else None
  }

  ghost predicate ValidRun(s: State, steps: seq<Step>)
    decreases |steps|
  {
    steps == [] || (Enabled(s, steps[0]) && ValidRun(Do(s, steps[0]), steps[1..]))
  }

  ghost function After(s: State, steps: seq<Step>): State
    requires ValidRun(s, steps)
    decreases |steps|
  {
    if steps == [] then s else After(Do(s, steps[0]), steps[1..])
  }

  const EMPTY := State(map[], map[], map[])

  lemma {:induction false} RunKeepsBook(s: State, steps: seq<Step>)
    requires Keeps(s.keys, s.book) && ValidRun(s, steps)
    ensures Keeps(After(s, steps).keys, After(s, steps).book)
    decreases |steps|
  {
    hide Keeps;
    if steps != [] {
      if steps[0].Change? {
        StepKeepsBook(s.keys, s.book, steps[0].op);
      } else if steps[0].Finish? {
        UseKeepsBook(s.keys, s.book, steps[0].matched, steps[0].now);
      }
      RunKeepsBook(Do(s, steps[0]), steps[1..]);
    }
  }

  /** The keys with the right prefix hold every match. */
  lemma PrefixHoldsMatches(m: Keys, q: string)
    requires Indexed(m)
    ensures Matching(WithPrefix(m, q), q) == Matching(m, q)
    ensures forall id :: id in WithPrefix(m, q) ==> WithPrefix(m, q)[id] == m[id]
  {
  }

  lemma {:induction false} LookupStays(s: State, steps: seq<Step>, tid: nat)
    requires ValidRun(s, steps) && tid in s.lookups
    requires forall i :: 0 <= i < |steps| ==> !(steps[i].Finish? && steps[i].tid == tid)
    ensures tid in After(s, steps).lookups && After(s, steps).lookups[tid] == s.lookups[tid]
    decreases |steps|
  {
    hide Perform, Matching;
    if steps != [] {
      assert forall i :: 0 <= i < |steps[1..]| ==> steps[1..][i] == steps[i + 1];
      LookupStays(Do(s, steps[0]), steps[1..], tid);
    }
  }

  /** In every interleaving a resolve answers what the book said when its lookup was made: it succeeds
      exactly if some key live then was minted with that text, and for the owner of such a key. What is
      minted or revoked before it finishes makes no difference. */
  lemma ResolveAnswersAsOfLookup(before: seq<Step>, tid: nat, q: string, later: seq<Step>, matched: KeyID, now: Time)
    requires ValidRun(EMPTY, before) && Enabled(After(EMPTY, before), LookUp(tid, q))
    requires ValidRun(Do(After(EMPTY, before), LookUp(tid, q)), later)
    requires forall i :: 0 <= i < |later| ==> !(later[i].Finish? && later[i].tid == tid)
    requires Enabled(After(Do(After(EMPTY, before), LookUp(tid, q)), later), Finish(tid, matched, now))
    ensures var s, s' := After(EMPTY, before), After(Do(After(EMPTY, before), LookUp(tid, q)), later);
            && tid in s'.lookups
            && (Answer(s'.lookups[tid], matched).Some? <==> Granted(s.book, q))
            && (Answer(s'.lookups[tid], matched).Some? ==>
                  matched in s.book && s.book[matched].plain == q
                  && s.book[matched].userID == Answer(s'.lookups[tid], matched).value)
  {
    var s := After(EMPTY, before);
    RunKeepsBook(EMPTY, before);
    LookupStays(Do(s, LookUp(tid, q)), later, tid);
    PrefixHoldsMatches(s.keys, q);
    MatchesAsBooked(s.keys, s.book, q);
  }

  function ChangeIn(a: Step): seq<Op> {
    if a.Change? then [a.op] else []
  }

  /** The changes among these steps, in their order. */
  function ChangesOf(steps: seq<Step>): seq<Op>
    decreases |steps|
  {
    if steps == [] then [] else ChangeIn(steps[0]) + ChangesOf(steps[1..])
  }

  lemma {:induction false} ChangesConcat(xs: seq<Step>, ys: seq<Step>)
    ensures ChangesOf(xs + ys) == ChangesOf(xs) + ChangesOf(ys)
    decreases |xs|
  {
    hide ChangeIn;
    if xs == [] {
      assert xs + ys == ys;
    } else {
      assert (xs + ys)[1..] == xs[1..] + ys;
      ChangesConcat(xs[1..], ys);
    }
  }

  /** The book is that of the changes alone: resolves leave it be. */
  lemma {:induction false} BookOfChanges(s: State, steps: seq<Step>)
    requires ValidRun(s, steps)
    ensures After(s, steps).book == Book(s.book, ChangesOf(steps))
    decreases |steps|
  {
    hide Perform, Matching, Booked;
    if steps != [] {
      var rest := ChangesOf(steps[1..]);
      BookOfChanges(Do(s, steps[0]), steps[1..]);
      if steps[0].Change? {
        assert ([steps[0].op] + rest)[1..] == rest;
      } else {
        assert [] + rest == rest;
      }
    }
  }

  lemma RevokedIsForgotten(before: seq<Step>, id: KeyID, u: UserID, later: seq<Step>)
    requires ValidRun(EMPTY, before) && id in After(EMPTY, before).book && After(EMPTY, before).book[id].userID == u
    requires ValidRun(EMPTY, before + ([Change(Revoke(id, u))] + later))
    requires FreshPlaintexts(map[], ChangesOf(before + ([Change(Revoke(id, u))] + later)))
    ensures !Granted(After(EMPTY, before + ([Change(Revoke(id, u))] + later)).book, After(EMPTY, before).book[id].plain)
  {
    hide FreshPlaintexts, Granted, Book;
    var rest := [Change(Revoke(id, u))] + later;
    BookOfChanges(EMPTY, before);
    BookOfChanges(EMPTY, before + rest);
    ChangesConcat(before, rest);
    assert rest[1..] == later && ChangesOf(rest) == [Revoke(id, u)] + ChangesOf(later);
    BookForgets(ChangesOf(before), id, u, ChangesOf(later));
  }

  /** After a key was revoked, no resolve of its plaintext whose lookup comes later ever succeeds, whatever
      was under way at the time and whatever else goes on. */
  lemma RevokedNeverAnswers(before: seq<Step>, id: KeyID, u: UserID, later: seq<Step>, tid: nat,
                            meanwhile: seq<Step>, matched: KeyID, now: Time)
    requires ValidRun(EMPTY, before) && id in After(EMPTY, before).book && After(EMPTY, before).book[id].userID == u
    requires ValidRun(EMPTY, before + ([Change(Revoke(id, u))] + later))
    requires FreshPlaintexts(map[], ChangesOf(before + ([Change(Revoke(id, u))] + later)))
    requires var q, s := After(EMPTY, before).book[id].plain, After(EMPTY, before + ([Change(Revoke(id, u))] + later));
             && Enabled(s, LookUp(tid, q)) && ValidRun(Do(s, LookUp(tid, q)), meanwhile)
             && Enabled(After(Do(s, LookUp(tid, q)), meanwhile), Finish(tid, matched, now))
    requires forall i :: 0 <= i < |meanwhile| ==> !(meanwhile[i].Finish? && meanwhile[i].tid == tid)
    ensures var q, s := After(EMPTY, before).book[id].plain, After(EMPTY, before + ([Change(Revoke(id, u))] + later));
            var s' := After(Do(s, LookUp(tid, q)), meanwhile);
            tid in s'.lookups && Answer(s'.lookups[tid], matched) == None
  {
    hide FreshPlaintexts, Granted, Answer;
    var all := before + ([Change(Revoke(id, u))] + later);
    RevokedIsForgotten(before, id, u, later);
    ResolveAnswersAsOfLookup(all, tid, After(EMPTY, before).book[id].plain, meanwhile, matched, now);
  }

  /** So a revocation binds the lookups after it, and only those: here one made before it succeeds
      when the key is gone. */
  lemma RevokedWhileResolving() returns (s: State)
    ensures exists steps :: ValidRun(EMPTY, steps) && After(EMPTY, steps) == s
    ensures !Granted(s.book, "agdkey_x") && s.keys == map[]
    ensures Enabled(s, Finish(0, "k", 0)) && Answer(s.lookups[0], "k") == Some("u")
  {
    var q := "agdkey_x";
    var mint, revoke := Change(Mint("u", "n", MintEnv(q, "k", 0, 0, None))), Change(Revoke("k", "u"));
    var s1 := Do(EMPTY, mint);
    var s2 := Do(s1, LookUp(0, q));
    s := Do(s2, revoke);
    assert "k" in Matching(s2.lookups[0].candidates, q);
    var steps := [mint, LookUp(0, q), revoke];
    assert steps[1..] == [LookUp(0, q), revoke] && steps[1..][1..] == [revoke] && [revoke][1..] == [];
    assert ValidRun(s, []) && After(s, []) == s;
    assert ValidRun(s2, [revoke]) && After(s2, [revoke]) == s;
    assert ValidRun(s1, [LookUp(0, q), revoke]) && After(s1, [LookUp(0, q), revoke]) == s;
    assert ValidRun(EMPTY, steps) && After(EMPTY, steps) == s;
  }
}
