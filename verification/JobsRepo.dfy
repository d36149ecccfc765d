/** The in-memory jobs repository: a map of rows behind one lock. */
module JobsRepo {
  import opened Wrappers
  import opened JobDomain
  import opened JobProtocol

  // ---- what the queries mean ----

  ghost function RowsOfUser(m: map<JobID, JobRow>, u: UserID): set<JobID> {
    set id | id in m && m[id].userID == u
  }

  ghost predicate NewestFirst(rows: seq<JobRow>) {
    forall i, j :: 0 <= i < j < |rows| ==> rows[i].createdAt >= rows[j].createdAt
  }

  /** rows are stored rows, each filed under its own id, none twice. */
  ghost predicate Listing(m: map<JobID, JobRow>, rows: seq<JobRow>) {
    && (forall i :: 0 <= i < |rows| ==> rows[i].id in m && m[rows[i].id] == rows[i])
    && (forall i, j :: 0 <= i < j < |rows| ==> rows[i].id != rows[j].id)
  }

  /** Every row is filed under its own id. */
  ghost predicate Keyed(m: map<JobID, JobRow>) {
    forall id :: id in m ==> m[id].id == id
  }

  lemma InsertKeepsOrder(out: seq<JobRow>, k: nat, r: JobRow)
    requires NewestFirst(out) && k <= |out|
    requires forall i :: 0 <= i < k ==> out[i].createdAt >= r.createdAt
    requires k < |out| ==> out[k].createdAt <= r.createdAt
    ensures NewestFirst(out[..k] + [r] + out[k..])
    ensures multiset(out[..k] + [r] + out[k..]) == multiset(out) + multiset{r}
  {
    assert out == out[..k] + out[k..];
  }

  /** Stands for the library sort: the callers use no more than that the result is a sorted
      rearrangement of the argument. */
  method SortNewestFirst(rows: seq<JobRow>) returns (out: seq<JobRow>)
    ensures multiset(out) == multiset(rows) && NewestFirst(out)
  {
    out := [];
    var n := 0;
    while n < |rows|
      invariant 0 <= n <= |rows|
      invariant multiset(out) == multiset(rows[..n]) && NewestFirst(out)
    {
      var k := PlaceFor(out, rows[n]);
      InsertKeepsOrder(out, k, rows[n]);
      assert rows[..n + 1] == rows[..n] + [rows[n]];
      out := out[..k] + [rows[n]] + out[k..];
      n := n + 1;
    }
    assert rows[..|rows|] == rows;
  }

  method PlaceFor(out: seq<JobRow>, r: JobRow) returns (k: nat)
    ensures k <= |out| && (k < |out| ==> out[k].createdAt < r.createdAt)
    ensures forall i :: 0 <= i < k ==> out[i].createdAt >= r.createdAt
  {
    k := 0;
    while k < |out| && out[k].createdAt >= r.createdAt
      invariant 0 <= k <= |out|
      invariant forall i :: 0 <= i < k ==> out[i].createdAt >= r.createdAt
    {
      k := k + 1;
    }
  }

  /** One more key looked at. */
  lemma SeenOneMore<T>(keys: set<T>, todo: set<T>, wanted: set<T>, id: T)
    requires id in todo && todo <= keys
    ensures (keys - (todo - {id})) * wanted == (keys - todo) * wanted + (if id in wanted then {id} else {})
    ensures |(keys - (todo - {id})) * wanted| == |(keys - todo) * wanted| + (if id in wanted then 1 else 0)
  {
    var before := (keys - todo) * wanted;
    assert (keys - (todo - {id})) * wanted == before + (if id in wanted then {id} else {});
    assert id !in before;
  }

  /** rows holds the wanted rows among the keys already looked at, each once. */
  ghost predicate Collected(m: map<JobID, JobRow>, wanted: set<JobID>, todo: set<JobID>, rows: seq<JobRow>) {
    && Listing(m, rows) && |rows| == |(m.Keys - todo) * wanted|
    && (forall i :: 0 <= i < |rows| ==> rows[i].id in wanted && rows[i].id !in todo)
    && (forall id :: id in wanted && id in m && id !in todo ==> m[id] in rows)
  }

  lemma CollectOne(m: map<JobID, JobRow>, wanted: set<JobID>, todo: set<JobID>, rows: seq<JobRow>, id: JobID)
    requires Keyed(m) && Collected(m, wanted, todo, rows) && id in todo && todo <= m.Keys
    ensures Collected(m, wanted, todo - {id}, if id in wanted then rows + [m[id]] else rows)
  {
    SeenOneMore(m.Keys, todo, wanted, id);
  }

  function RowsWith(m: map<JobID, JobRow>, status: Status): set<JobID> {
    set id | id in m && m[id].status == status
  }

  ghost predicate ListsAllRunning(m: map<JobID, JobRow>, rows: seq<JobRow>) {
    Collected(m, RowsWith(m, Running), {}, rows)
  }

  class FakeJobsRepo {
    var m: map<JobID, JobRow>

    constructor ()
      ensures m == map[]
    {
      m := map[];
    }

    method Create(j: Job) returns (err: Option<Error>)
      modifies this`m
      ensures old(j.id in m) ==> err == Some(Conflict) && m == old(m)
      ensures old(j.id !in m) ==> err == None && m == old(m)[j.id := old(j.Row())]
    {
      if j.id in m {
        return Some(Conflict);
      }
      m := m[j.id := j.Row()];
      return None;
    }

    method Get(id: JobID) returns (r: Result<JobRow>)
      ensures r == if id in m then Ok(m[id]) else Err(NotFound)
    {
      if id !in m {
        return Err(NotFound);
      }
      return Ok(m[id]);
    }

    method GetForUser(id: JobID, u: UserID) returns (r: Result<JobRow>)
      ensures r == if id in m && m[id].userID == u then Ok(m[id]) else Err(NotFound)
    {
      r := Get(id);
      if r.Ok? && r.value.userID != u {
        return Err(NotFound);
      }
    }

    method Update(j: Job) returns (err: Option<Error>)
      modifies this`m
      ensures old(j.id !in m) ==> err == Some(NotFound) && m == old(m)
      ensures old(j.id in m) ==> err == None && m == old(m)[j.id := old(j.Row())]
    {
      if j.id !in m {
        return Some(NotFound);
      }
      m := m[j.id := j.Row()];
      return None;
    }

    method CountActiveForUser(u: UserID) returns (n: nat)
      ensures n == |set id | id in m && m[id].userID == u && (m[id].status == Queued || m[id].status == Running)|
      ensures n == |ActiveFor(m, u)|
    {
      n := 0;
      var todo := m.Keys;
      ghost var wanted := ActiveFor(m, u);
      while todo != {}
        invariant todo <= m.Keys && n == |(m.Keys - todo) * wanted|
        decreases todo
      {
        var id :| id in todo;
        SeenOneMore(m.Keys, todo, wanted, id);
        todo := todo - {id};
        if m[id].userID == u && (m[id].status == Queued || m[id].status == Running) {
          n := n + 1;
        }
      }
      assert (m.Keys - todo) * wanted == wanted;
      assert wanted == set id | id in m && m[id].userID == u && (m[id].status == Queued || m[id].status == Running);
    }

    method CountActiveGlobal() returns (n: nat)
      ensures n == |set id | id in m && (m[id].status == Queued || m[id].status == Running)|
      ensures n == |ActiveAll(m)|
    {
      n := 0;
      var todo := m.Keys;
      ghost var wanted := ActiveAll(m);
      while todo != {}
        invariant todo <= m.Keys && n == |(m.Keys - todo) * wanted|
        decreases todo
      {
        var id :| id in todo;
        SeenOneMore(m.Keys, todo, wanted, id);
        todo := todo - {id};
        if m[id].status == Queued || m[id].status == Running {
          n := n + 1;
        }
      }
      assert (m.Keys - todo) * wanted == wanted;
      assert wanted == set id | id in m && (m[id].status == Queued || m[id].status == Running);
    }

    /** Every row with this status, in whatever order the map yields them. */
    method ListByStatus(status: Status) returns (out: seq<JobRow>)
      requires Keyed(m)
      ensures forall i :: 0 <= i < |out| ==> out[i].status == status
      ensures forall id :: id in m && m[id].status == status ==> m[id] in out
      ensures Collected(m, RowsWith(m, status), {}, out)
    {
      out := [];
      var todo := m.Keys;
      while todo != {}
        invariant todo <= m.Keys && Collected(m, RowsWith(m, status), todo, out)
        decreases todo
      {
        var id :| id in todo;
        CollectOne(m, RowsWith(m, status), todo, out, id);
        todo := todo - {id};
        if m[id].status == status {
          out := out + [m[id]];
        }
      }
      CollectedHaveStatus(m, status, out);
    }

    /** Every row of one user, in whatever order the map yields them. */
    method CollectForUser(u: UserID) returns (out: seq<JobRow>)
      requires Keyed(m)
      ensures ListsUser(m, u, out)
    {
      out := [];
      var todo := m.Keys;
      while todo != {}
        invariant todo <= m.Keys && Collected(m, RowsOfUser(m, u), todo, out)
        decreases todo
      {
        var id :| id in todo;
        CollectOne(m, RowsOfUser(m, u), todo, out, id);
        todo := todo - {id};
        if m[id].userID == u {
          out := out + [m[id]];
        }
      }
      CollectedIsUsers(m, u, out);
    }

    /** The newest rows of one user. */
    method ListForUser(u: UserID, limit: int) returns (out: seq<JobRow>)
      requires Keyed(m)
      ensures forall i :: 0 <= i < |out| ==> out[i].id in m && m[out[i].id] == out[i] && out[i].userID == u
      ensures forall i, j :: 0 <= i < j < |out| ==> out[i].id != out[j].id && out[i].createdAt >= out[j].createdAt
      ensures var total := |set id | id in m && m[id].userID == u|;
              |out| == if limit > 0 && limit < total then limit else total
      ensures NewestOf(m, u, limit, out)
    {
      var all := CollectForUser(u);
      out := SortNewestFirst(all);
      SortedListing(m, u, all, out);
      KeepNewest(m, u, limit, out);
      if limit > 0 && |out| > limit {
        out := out[..limit];
      }
    }
  }

  /** rows lists the rows of u, each once. */
  ghost predicate ListsUser(m: map<JobID, JobRow>, u: UserID, rows: seq<JobRow>) {
    && Listing(m, rows) && |rows| == |RowsOfUser(m, u)|
    && (forall i :: 0 <= i < |rows| ==> rows[i].userID == u)
    && (forall id :: id in m && m[id].userID == u ==> m[id] in rows)
  }

  lemma CollectedHaveStatus(m: map<JobID, JobRow>, status: Status, rows: seq<JobRow>)
    requires Collected(m, RowsWith(m, status), {}, rows)
    ensures forall i :: 0 <= i < |rows| ==> rows[i].status == status
    ensures forall id :: id in m && m[id].status == status ==> m[id] in rows
  {
    forall i | 0 <= i < |rows| ensures rows[i].status == status {
      assert rows[i].id in RowsWith(m, status);
    }
    forall id | id in m && m[id].status == status ensures m[id] in rows {
      assert id in RowsWith(m, status);
    }
  }

  lemma CollectedIsUsers(m: map<JobID, JobRow>, u: UserID, rows: seq<JobRow>)
    requires Collected(m, RowsOfUser(m, u), {}, rows)
    ensures ListsUser(m, u, rows)
  {
    assert (m.Keys - {}) * RowsOfUser(m, u) == RowsOfUser(m, u);
    forall id | id in m && m[id].userID == u ensures m[id] in rows {
      assert id in RowsOfUser(m, u);
    }
    forall i | 0 <= i < |rows| ensures rows[i].userID == u {
      assert rows[i].id in RowsOfUser(m, u);
    }
  }

  /** What the port promises: only rows of u, none twice, newest first, as many as the limit
      allows (a limit that is not positive is none), and nothing newer left out. */
  ghost predicate NewestOf(m: map<JobID, JobRow>, u: UserID, limit: int, out: seq<JobRow>) {
    && Listing(m, out) && NewestFirst(out)
    && (forall i :: 0 <= i < |out| ==> out[i].userID == u)
    && |out| == (if 0 < limit < |RowsOfUser(m, u)| then limit else |RowsOfUser(m, u)|)
    && (forall id, i :: id in m && m[id].userID == u && m[id] !in out && 0 <= i < |out| ==>
          m[id].createdAt <= out[i].createdAt)
  }

  /** The first rows of a sorted listing are the newest ones. */
  lemma KeepNewest(m: map<JobID, JobRow>, u: UserID, limit: int, rows: seq<JobRow>)
    requires ListsUser(m, u, rows) && NewestFirst(rows)
    ensures NewestOf(m, u, limit, if 0 < limit < |rows| then rows[..limit] else rows)
  {
    var out := if 0 < limit < |rows| then rows[..limit] else rows;
    forall k | 0 <= k < |out| ensures rows[k] in out {
      assert out[k] == rows[k];
    }
    forall id, i | id in m && m[id].userID == u && m[id] !in out && 0 <= i < |out|
      ensures m[id].createdAt <= out[i].createdAt
    {
      assert m[id] in rows;
      var k :| 0 <= k < |rows| && rows[k] == m[id];
      assert k >= |out|;
    }
  }

  lemma SameMembers(a: seq<JobRow>, b: seq<JobRow>)
    requires multiset(a) == multiset(b)
    ensures |a| == |b| && forall r :: r in a <==> r in b
  {
    assert |multiset(a)| == |multiset(b)|;
    forall r ensures r in a <==> r in b {
      assert r in a <==> r in multiset(a);
      assert r in b <==> r in multiset(b);
    }
  }

  lemma TwoPlaces(a: seq<JobRow>, i: nat, j: nat)
    requires i < j < |a| && a[i] == a[j]
    ensures multiset(a)[a[i]] >= 2
  {
    assert a == a[..i] + [a[i]] + a[i + 1..j] + [a[j]] + a[j + 1..];
  }

  /** A rearrangement of a listing is a listing of the same rows. */
  lemma SortedListing(m: map<JobID, JobRow>, u: UserID, all: seq<JobRow>, sorted: seq<JobRow>)
    requires ListsUser(m, u, all) && multiset(sorted) == multiset(all)
    ensures ListsUser(m, u, sorted)
  {
    SameMembers(sorted, all);
    forall i | 0 <= i < |sorted| ensures sorted[i].id in m && m[sorted[i].id] == sorted[i] && sorted[i].userID == u {
      assert sorted[i] in all;
    }
    forall i, j | 0 <= i < j < |sorted| ensures sorted[i].id != sorted[j].id {
      if sorted[i].id == sorted[j].id {
        assert m[sorted[i].id] == sorted[i] && m[sorted[j].id] == sorted[j];
        TwoPlaces(sorted, i, j);
        OnceInListing(m, all, sorted[i]);
        assert false;
      }
    }
  }

  lemma OnceInListing(m: map<JobID, JobRow>, all: seq<JobRow>, r: JobRow)
    requires Listing(m, all)
    ensures multiset(all)[r] <= 1
  {
    if all != [] {
      var front, last := all[..|all| - 1], all[|all| - 1];
      assert all == front + [last];
      OnceInListing(m, front, r);
      if last == r {
        assert r !in front;
        assert r !in multiset(front);
      }
    }
  }

  // ---- conservation ----

  ghost function Pick<T>(xs: set<T>): T
    requires xs != {}
  {
    var x :| x in xs;
    x
  }

  ghost function Owners(m: map<JobID, JobRow>): set<UserID> {
    set id | id in m :: m[id].userID
  }

  /** The per-user counts of these users, added up. */
  ghost function SumOfCounts(m: map<JobID, JobRow>, users: set<UserID>): nat
    decreases users
  {
    if users == {} then 0
    else
      var u := Pick(users);
      |ActiveFor(m, u)| + SumOfCounts(m, users - {u})
  }

  ghost function ActiveAmong(m: map<JobID, JobRow>, users: set<UserID>): set<JobID> {
    set id | id in m && m[id].IsActive() && m[id].userID in users
  }

  lemma {:induction false} SumOverUsers(m: map<JobID, JobRow>, users: set<UserID>)
    ensures SumOfCounts(m, users) == |ActiveAmong(m, users)|
    decreases users
  {
    if users == {} {
      assert ActiveAmong(m, users) == {};
    } else {
      var u := Pick(users);
      SumOverUsers(m, users - {u});
      assert ActiveAmong(m, users) == ActiveFor(m, u) + ActiveAmong(m, users - {u});
      assert ActiveFor(m, u) !! ActiveAmong(m, users - {u});
    }
  }

  /** In every store the per-user counts of all owners add up to the global count. */
  lemma CountsAddUp(m: map<JobID, JobRow>)
    ensures SumOfCounts(m, Owners(m)) == |ActiveAll(m)|
  {
    SumOverUsers(m, Owners(m));
    assert ActiveAmong(m, Owners(m)) == ActiveAll(m);
  }
}
