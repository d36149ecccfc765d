/** The runner egress rules: a chain evaluated by first match, and the script that edits it. */
module Firewall {
  import opened Wrappers

  // ---- addresses (section 3.1 of RFC 4632) ----

  const ADDRESS_SPACE := 0x1_0000_0000

  type Address = a: int | 0 <= a < ADDRESS_SPACE

  type PrefixLength = b: int | 0 <= b <= 32

  /** How many addresses a prefix of this length covers. */
  function BlockSize(bits: PrefixLength): (n: nat)
    ensures n > 0
    decreases 32 - bits
  {
    if bits == 32 then 1 else 2 * BlockSize(bits + 1)
  }

  datatype Cidr = Cidr(base: Address, bits: PrefixLength) {
    /** The address agrees with the base on the prefix. */
    predicate Contains(a: Address) {
      a / BlockSize(bits) == base / BlockSize(bits)
    }

    /** What iptables stores: the host bits of the base cleared. */
    function Canonical(): Cidr {
      MaskDown(base, BlockSize(bits));
      Cidr(base - base % BlockSize(bits), bits)
    }
  }

  lemma MaskDown(a: Address, n: nat)
    requires n > 0
    ensures 0 <= a - a % n < ADDRESS_SPACE && (a - a % n) / n == a / n && (a - a % n) % n == 0
  {
    var q, r := a / n, a % n;
    assert a == q * n + r;
    assert a - r == q * n;
    MultipleOf(q, n);
  }

  lemma MultipleOf(q: int, n: nat)
    requires n > 0
    ensures (q * n) / n == q && (q * n) % n == 0
  {
    var d, m := (q * n) / n, (q * n) % n;
    assert q * n == d * n + m && 0 <= m < n;
    assert (q - d) * n == m;
    ScaledUp(q - d, n);
  }

  lemma ScaledUp(k: int, n: nat)
    requires n > 0
    ensures k >= 1 ==> k * n >= n
    ensures k <= -1 ==> k * n + n <= 0
  {
  }

  /** Clearing the host bits changes the name of a block, not the block. */
  lemma CanonicalContains(c: Cidr, a: Address)
    ensures c.Canonical().Contains(a) <==> c.Contains(a)
  {
    MaskDown(c.base, BlockSize(c.bits));
  }

  // ---- rules and verdicts ----

  datatype Packet = Packet(src: Address, dst: Address, established: bool)

  /** LOG and the like let evaluation go on; the other targets end it. */
  datatype Target = Drop | Return | Accept | Jump(chain: string) | Continue(action: string)

  /** Other match modules are named; what they match is left open. */
  datatype Rule = Rule(src: Option<Cidr>, dst: Option<Cidr>, established: bool, others: seq<string>, target: Target)

  /** The meaning of the match modules the script does not use. */
  type Extensions = (string, Packet) -> bool

  predicate CidrMatches(c: Option<Cidr>, a: Address) {
    c.Some? ==> c.value.Contains(a)
  }

  predicate RuleMatches(ext: Extensions, r: Rule, p: Packet) {
    && CidrMatches(r.src, p.src)
    && CidrMatches(r.dst, p.dst)
    && (r.established ==> p.established)
    && (forall x | x in r.others :: ext(x, p))
  }

  /** First match; a packet no rule decides falls off the end and returns. */
  function Verdict(ext: Extensions, chain: seq<Rule>, p: Packet): Target
    decreases |chain|
  {
    if chain == [] then Return
    else if RuleMatches(ext, chain[0], p) && !chain[0].target.Continue? then chain[0].target
    else Verdict(ext, chain[1..], p)
  }

  // ---- the script's rules ----

  function Ip(a: nat, b: nat, c: nat, d: nat): Address
    requires a < 256 && b < 256 && c < 256 && d < 256
  {
    ((a * 256 + b) * 256 + c) * 256 + d
  }

  const SUBNET := Cidr(Ip(172, 31, 255, 0), 24)

  /** The ranges dropped by default (section 3 of RFC 1918, and link-local). */
  const DEFAULT_DROPS := [
    Cidr(Ip(10, 0, 0, 0), 8),
    Cidr(Ip(172, 16, 0, 0), 12),
    Cidr(Ip(192, 168, 0, 0), 16),
    Cidr(Ip(169, 254, 0, 0), 16)
  ]

  function DropRule(c: Cidr): Rule {
    Rule(Some(SUBNET), Some(c.Canonical()), false, [], Drop)
  }

  const ESTABLISHED_RULE := Rule(Some(SUBNET), None, true, [], Return)

  ghost predicate IsDrop(cidrs: seq<Cidr>, r: Rule) {
    exists c :: c in cidrs && r == DropRule(c)
  }

  /** The rules the script inserts and deletes. */
  ghost predicate Ours(cidrs: seq<Cidr>, r: Rule) {
    r == ESTABLISHED_RULE || IsDrop(cidrs, r)
  }

  // ---- what the edits compute ----

  function Inserted(chain: seq<Rule>, r: Rule): seq<Rule> {
    if r in chain then chain else [r] + chain
  }

  function Without(chain: seq<Rule>, r: Rule): seq<Rule>
    decreases |chain|
  {
    if chain == [] then []
    else if chain[0] == r then Without(chain[1..], r)
    else [chain[0]] + Without(chain[1..], r)
  }

  ghost function InsertedDrops(chain: seq<Rule>, cidrs: seq<Cidr>): seq<Rule>
    decreases |cidrs|
  {
    if cidrs == [] then chain else InsertedDrops(Inserted(chain, DropRule(cidrs[0])), cidrs[1..])
  }

  ghost function WithoutDrops(chain: seq<Rule>, cidrs: seq<Cidr>): seq<Rule>
    decreases |cidrs|
  {
    if cidrs == [] then chain else WithoutDrops(Without(chain, DropRule(cidrs[0])), cidrs[1..])
  }

  ghost function RulesUp(chain: seq<Rule>, cidrs: seq<Cidr>): seq<Rule> {
    Inserted(InsertedDrops(chain, cidrs), ESTABLISHED_RULE)
  }

  ghost function RulesDown(chain: seq<Rule>, cidrs: seq<Cidr>): seq<Rule> {
    Without(WithoutDrops(chain, cidrs), ESTABLISHED_RULE)
  }

  /** The chain with our rules filtered out, the order of the rest kept. */
  ghost function Foreign(chain: seq<Rule>, cidrs: seq<Cidr>): seq<Rule>
    decreases |chain|
  {
    if chain == [] then []
    else if Ours(cidrs, chain[0]) then Foreign(chain[1..], cidrs)
    else [chain[0]] + Foreign(chain[1..], cidrs)
  }

  // ---- the script ----

  class DockerUser {
    var rules: seq<Rule>

    constructor (rules: seq<Rule>)
      ensures this.rules == rules
    {
      this.rules := rules;
    }

    method InsRule(r: Rule)
      modifies this
      ensures rules == Inserted(old(rules), r)
    {
      if r !in rules {
        rules := [r] + rules;
      }
    }

    /** Deletes the first copy. */
    method DeleteFirst(r: Rule)
      requires r in rules
      modifies this
      ensures multiset(rules) == multiset(old(rules)) - multiset{r}
      ensures Without(rules, r) == Without(old(rules), r)
    {
      var i := 0;
      while rules[i] != r
        invariant 0 <= i < |rules| && r in rules[i..]
        decreases |rules| - i
      {
        i := i + 1;
      }
      OneCopyLess(rules, i);
      rules := rules[..i] + rules[i + 1..];
    }

    method DelRule(r: Rule)
      modifies this
      ensures rules == Without(old(rules), r)
    {
      while r in rules
        invariant Without(rules, r) == Without(old(rules), r)
        decreases multiset(rules)[r]
      {
        DeleteFirst(r);
      }
      WithoutAbsent(rules, r);
    }

    method Up(cidrs: seq<Cidr>)
      modifies this
      ensures rules == RulesUp(old(rules), cidrs)
    {
      var i := 0;
      while i < |cidrs|
        invariant 0 <= i <= |cidrs|
        invariant InsertedDrops(rules, cidrs[i..]) == InsertedDrops(old(rules), cidrs)
      {
        assert cidrs[i..][0] == cidrs[i] && cidrs[i..][1..] == cidrs[i + 1..];
        InsRule(DropRule(cidrs[i]));
        i := i + 1;
      }
      InsRule(ESTABLISHED_RULE);
    }

    method Down(cidrs: seq<Cidr>)
      modifies this
      ensures rules == RulesDown(old(rules), cidrs)
    {
      var i := 0;
      while i < |cidrs|
        invariant 0 <= i <= |cidrs|
        invariant WithoutDrops(rules, cidrs[i..]) == WithoutDrops(old(rules), cidrs)
      {
        assert cidrs[i..][0] == cidrs[i] && cidrs[i..][1..] == cidrs[i + 1..];
        DelRule(DropRule(cidrs[i]));
        i := i + 1;
      }
      DelRule(ESTABLISHED_RULE);
    }
  }

  lemma {:induction false} WithoutConcat(a: seq<Rule>, b: seq<Rule>, r: Rule)
    ensures Without(a + b, r) == Without(a, r) + Without(b, r)
    decreases |a|
  {
    if a == [] {
      assert a + b == b;
    } else {
      assert (a + b)[1..] == a[1..] + b;
      WithoutConcat(a[1..], b, r);
    }
  }

  lemma RemoveOne<T>(a: seq<T>, x: T, b: seq<T>)
    ensures multiset(a + b) == multiset(a + ([x] + b)) - multiset{x}
  {
  }

  lemma WithoutOne(a: seq<Rule>, r: Rule, b: seq<Rule>)
    ensures Without(a + b, r) == Without(a + ([r] + b), r)
  {
    assert ([r] + b)[1..] == b;
    WithoutConcat(a, [r] + b, r);
    WithoutConcat(a, b, r);
  }

  lemma CutAt<T>(xs: seq<T>, i: nat)
    requires i < |xs|
    ensures xs[..i] + ([xs[i]] + xs[i + 1..]) == xs
  {
  }

  lemma OneCopyLess(chain: seq<Rule>, i: nat)
    requires i < |chain|
    ensures multiset(chain[..i] + chain[i + 1..]) == multiset(chain) - multiset{chain[i]}
    ensures Without(chain[..i] + chain[i + 1..], chain[i]) == Without(chain, chain[i])
  {
    hide Without;
    var a, r, b := chain[..i], chain[i], chain[i + 1..];
    CutAt(chain, i);
    RemoveOne(a, r, b);
    WithoutOne(a, r, b);
  }

  lemma {:induction false} WithoutAbsent(chain: seq<Rule>, r: Rule)
    ensures r !in Without(chain, r)
    ensures r !in chain ==> Without(chain, r) == chain
    decreases |chain|
  {
    if chain != [] {
      WithoutAbsent(chain[1..], r);
    }
  }

  // ---- up and down as edits ----

  lemma IsDropSplits(cidrs: seq<Cidr>, r: Rule)
    requires cidrs != []
    ensures IsDrop(cidrs, r) <==> r == DropRule(cidrs[0]) || IsDrop(cidrs[1..], r)
  {
    if IsDrop(cidrs, r) && r != DropRule(cidrs[0]) {
      var c :| c in cidrs && r == DropRule(c);
      assert c in cidrs[1..];
    }
    if IsDrop(cidrs[1..], r) {
      var c :| c in cidrs[1..] && r == DropRule(c);
      assert c in cidrs;
    }
  }

  lemma {:induction false} DropsArePresent(chain: seq<Rule>, cidrs: seq<Cidr>)
    ensures forall r :: r in InsertedDrops(chain, cidrs) <==> r in chain || IsDrop(cidrs, r)
    decreases |cidrs|
  {
    if cidrs != [] {
      var next := Inserted(chain, DropRule(cidrs[0]));
      DropsArePresent(next, cidrs[1..]);
      forall r ensures r in InsertedDrops(chain, cidrs) <==> r in chain || IsDrop(cidrs, r) {
        IsDropSplits(cidrs, r);
        assert r in next <==> r in chain || r == DropRule(cidrs[0]);
      }
    }
  }

  lemma {:induction false} NothingToInsert(chain: seq<Rule>, cidrs: seq<Cidr>)
    requires forall c :: c in cidrs ==> DropRule(c) in chain
    ensures InsertedDrops(chain, cidrs) == chain
    decreases |cidrs|
  {
    if cidrs != [] {
      NothingToInsert(chain, cidrs[1..]);
    }
  }

  /** Applying the rules again changes nothing, whatever the chain held before. */
  lemma UpIsIdempotent(chain: seq<Rule>, cidrs: seq<Cidr>)
    ensures RulesUp(RulesUp(chain, cidrs), cidrs) == RulesUp(chain, cidrs)
  {
    DropsArePresent(chain, cidrs);
    var up := RulesUp(chain, cidrs);
    forall c | c in cidrs ensures DropRule(c) in up {
      assert DropRule(c) in InsertedDrops(chain, cidrs);
    }
    NothingToInsert(up, cidrs);
  }

  lemma {:induction false} ForeignSkips(chain: seq<Rule>, cidrs: seq<Cidr>, r: Rule)
    requires Ours(cidrs, r)
    ensures Foreign(Without(chain, r), cidrs) == Foreign(chain, cidrs)
    decreases |chain|
  {
    if chain != [] {
      ForeignSkips(chain[1..], cidrs, r);
    }
  }

  lemma {:induction false} ForeignOfClean(chain: seq<Rule>, cidrs: seq<Cidr>)
    requires forall r :: r in chain ==> !Ours(cidrs, r)
    ensures Foreign(chain, cidrs) == chain
    decreases |chain|
  {
    if chain != [] {
      ForeignOfClean(chain[1..], cidrs);
    }
  }

  lemma {:induction false} WithoutKeeps(chain: seq<Rule>, r: Rule)
    ensures forall x :: x in Without(chain, r) <==> x in chain && x != r
    decreases |chain|
  {
    if chain != [] {
      WithoutKeeps(chain[1..], r);
    }
  }

  /** `all` holds every drop rule of the list; the loop over `cidrs` removes those of its own. */
  lemma {:induction false} WithoutDropsIs(chain: seq<Rule>, cidrs: seq<Cidr>, all: seq<Cidr>)
    requires forall c :: c in cidrs ==> c in all
    ensures Foreign(WithoutDrops(chain, cidrs), all) == Foreign(chain, all)
    ensures forall r :: r in WithoutDrops(chain, cidrs) ==> r in chain && forall c :: c in cidrs ==> r != DropRule(c)
    decreases |cidrs|
  {
    if cidrs != [] {
      var next := Without(chain, DropRule(cidrs[0]));
      ForeignSkips(chain, all, DropRule(cidrs[0]));
      WithoutKeeps(chain, DropRule(cidrs[0]));
      WithoutDropsIs(next, cidrs[1..], all);
      forall r, c | r in WithoutDrops(chain, cidrs) && c in cidrs ensures r != DropRule(c) {
        if c != cidrs[0] {
          assert c in cidrs[1..];
        }
      }
    }
  }

  /** `down` removes exactly the script's rules, every copy of them, and keeps the rest in order. */
  lemma DownIsForeign(chain: seq<Rule>, cidrs: seq<Cidr>)
    ensures RulesDown(chain, cidrs) == Foreign(chain, cidrs)
  {
    WithoutDropsIs(chain, cidrs, cidrs);
    var dropped := WithoutDrops(chain, cidrs);
    ForeignSkips(dropped, cidrs, ESTABLISHED_RULE);
    WithoutKeeps(dropped, ESTABLISHED_RULE);
    ForeignOfClean(RulesDown(chain, cidrs), cidrs);
  }

  lemma {:induction false} InsertedDropsForeign(chain: seq<Rule>, cidrs: seq<Cidr>, all: seq<Cidr>)
    requires forall c :: c in cidrs ==> c in all
    ensures Foreign(InsertedDrops(chain, cidrs), all) == Foreign(chain, all)
    decreases |cidrs|
  {
    if cidrs != [] {
      assert ([DropRule(cidrs[0])] + chain)[1..] == chain;
      InsertedDropsForeign(Inserted(chain, DropRule(cidrs[0])), cidrs[1..], all);
    }
  }

  /** Taking the rules down undoes putting them up: from any chain the result is the same. */
  lemma DownUndoesUp(chain: seq<Rule>, cidrs: seq<Cidr>)
    ensures RulesDown(RulesUp(chain, cidrs), cidrs) == RulesDown(chain, cidrs)
  {
    DownIsForeign(chain, cidrs);
    DownIsForeign(RulesUp(chain, cidrs), cidrs);
    InsertedDropsForeign(chain, cidrs, cidrs);
    var drops := InsertedDrops(chain, cidrs);
    assert ([ESTABLISHED_RULE] + drops)[1..] == drops;
  }

  // ---- sequences of calls ----

  ghost predicate Clean(chain: seq<Rule>, cidrs: seq<Cidr>) {
    forall r :: r in chain ==> !Ours(cidrs, r)
  }

  /** true is `up`, false is `down`. */
  ghost function Calls(chain: seq<Rule>, cidrs: seq<Cidr>, ups: seq<bool>): seq<Rule>
    decreases |ups|
  {
    if ups == [] then chain
    else
      var before := Calls(chain, cidrs, ups[..|ups| - 1]);
      if ups[|ups| - 1] then RulesUp(before, cidrs) else RulesDown(before, cidrs)
  }

  /** From a clean chain only two chains are ever reached, and the last call says which. */
  lemma {:induction false} OnlyLastCallCounts(chain: seq<Rule>, cidrs: seq<Cidr>, ups: seq<bool>)
    requires Clean(chain, cidrs)
    ensures Calls(chain, cidrs, ups) == if ups != [] && ups[|ups| - 1] then RulesUp(chain, cidrs) else chain
    decreases |ups|
  {
    if ups != [] {
      OnlyLastCallCounts(chain, cidrs, ups[..|ups| - 1]);
      UpIsIdempotent(chain, cidrs);
      DownUndoesUp(chain, cidrs);
      DownIsForeign(chain, cidrs);
      ForeignOfClean(chain, cidrs);
    }
  }

  // ---- what the rules do to a packet ----

  ghost predicate Listed(cidrs: seq<Cidr>, a: Address) {
    exists c :: c in cidrs && c.Contains(a)
  }

  predicate FromRunner(p: Packet) {
    SUBNET.Contains(p.src)
  }

  lemma DropMatches(ext: Extensions, c: Cidr, p: Packet)
    ensures RuleMatches(ext, DropRule(c), p) <==> FromRunner(p) && c.Contains(p.dst)
  {
    CanonicalContains(c, p.dst);
  }

  /** Some listed block holds the address, and its rule is not in the chain yet. */
  ghost predicate NewlyListed(chain: seq<Rule>, cidrs: seq<Cidr>, a: Address) {
    exists c :: c in cidrs && c.Contains(a) && DropRule(c) !in chain
  }

  lemma NewlyListedSplits(chain: seq<Rule>, cidrs: seq<Cidr>, p: Packet)
    requires cidrs != [] && FromRunner(p)
    ensures NewlyListed(chain, cidrs, p.dst) <==>
              || (DropRule(cidrs[0]) !in chain && cidrs[0].Contains(p.dst))
              || NewlyListed(Inserted(chain, DropRule(cidrs[0])), cidrs[1..], p.dst)
  {
    var d := DropRule(cidrs[0]);
    CanonicalContains(cidrs[0], p.dst);
    if NewlyListed(chain, cidrs, p.dst) {
      var c :| c in cidrs && c.Contains(p.dst) && DropRule(c) !in chain;
      CanonicalContains(c, p.dst);
      if DropRule(c) != d {
        assert c in cidrs[1..] && DropRule(c) !in Inserted(chain, d);
      }
    }
    if NewlyListed(Inserted(chain, d), cidrs[1..], p.dst) {
      var c :| c in cidrs[1..] && c.Contains(p.dst) && DropRule(c) !in Inserted(chain, d);
      assert c in cidrs && DropRule(c) !in chain;
    }
  }

  /** Drops go on top of any chain, but only those it does not hold yet. */
  lemma {:induction false} DropsVerdict(ext: Extensions, chain: seq<Rule>, cidrs: seq<Cidr>, p: Packet)
    ensures Verdict(ext, InsertedDrops(chain, cidrs), p)
         == if FromRunner(p) && NewlyListed(chain, cidrs, p.dst) then Drop else Verdict(ext, chain, p)
    decreases |cidrs|
  {
    if cidrs != [] {
      var d := DropRule(cidrs[0]);
      DropMatches(ext, cidrs[0], p);
      assert d !in chain ==> Inserted(chain, d)[1..] == chain;
      if FromRunner(p) {
        NewlyListedSplits(chain, cidrs, p);
      }
      DropsVerdict(ext, Inserted(chain, d), cidrs[1..], p);
    }
  }

  /** First-match meaning of `up` on every chain and for every packet. Only what is not there yet goes on
      top: the RETURN for established traffic first, below it the drops, below them the chain as it was. */
  lemma UpVerdictAnywhere(ext: Extensions, chain: seq<Rule>, cidrs: seq<Cidr>, p: Packet)
    ensures Verdict(ext, RulesUp(chain, cidrs), p)
         == if FromRunner(p) && p.established && ESTABLISHED_RULE !in chain then Return
            else if FromRunner(p) && NewlyListed(chain, cidrs, p.dst) then Drop
            else Verdict(ext, chain, p)
  {
    DropsVerdict(ext, chain, cidrs, p);
    DropsArePresent(chain, cidrs);
    var drops := InsertedDrops(chain, cidrs);
    assert ESTABLISHED_RULE in drops <==> ESTABLISHED_RULE in chain;
    assert ([ESTABLISHED_RULE] + drops)[1..] == drops;
  }

  lemma CleanIsNew(chain: seq<Rule>, cidrs: seq<Cidr>, a: Address)
    requires Clean(chain, cidrs)
    ensures ESTABLISHED_RULE !in chain && (NewlyListed(chain, cidrs, a) <==> Listed(cidrs, a))
  {
    forall c | c in cidrs ensures DropRule(c) !in chain {
      assert Ours(cidrs, DropRule(c));
    }
    assert Ours(cidrs, ESTABLISHED_RULE);
  }

  /** On a chain that holds none of the script's rules the list alone decides. */
  lemma UpVerdict(ext: Extensions, chain: seq<Rule>, cidrs: seq<Cidr>, p: Packet)
    requires Clean(chain, cidrs)
    ensures Verdict(ext, RulesUp(chain, cidrs), p)
         == if FromRunner(p) && p.established then Return
            else if FromRunner(p) && Listed(cidrs, p.dst) then Drop
            else Verdict(ext, chain, p)
  {
    UpVerdictAnywhere(ext, chain, cidrs, p);
    CleanIsNew(chain, cidrs, p.dst);
  }

  // ---- a list that changes between two calls ----

  /** `up` with one list and again with another. What the second list adds lands above the RETURN of the
      first call, so established runner traffic to an added block is dropped. */
  lemma ChangedListVerdict(ext: Extensions, chain: seq<Rule>, before: seq<Cidr>, after: seq<Cidr>, p: Packet)
    requires Clean(chain, before)
    ensures Verdict(ext, RulesUp(RulesUp(chain, before), after), p)
         == if FromRunner(p) && NewlyListed(RulesUp(chain, before), after, p.dst) then Drop
            else if FromRunner(p) && p.established then Return
            else if FromRunner(p) && Listed(before, p.dst) then Drop
            else Verdict(ext, chain, p)
  {
    var first := RulesUp(chain, before);
    UpVerdictAnywhere(ext, first, after, p);
    UpVerdict(ext, chain, before, p);
    assert ESTABLISHED_RULE in first;
  }

  /** `up` once for each of these lists. */
  ghost function UpAll(chain: seq<Rule>, lists: seq<seq<Cidr>>): seq<Rule>
    decreases |lists|
  {
    if lists == [] then chain else RulesUp(UpAll(chain, lists[..|lists| - 1]), lists[|lists| - 1])
  }

  ghost predicate RuleOfAny(lists: seq<seq<Cidr>>, r: Rule) {
    exists i :: 0 <= i < |lists| && IsDrop(lists[i], r)
  }

  /** List i holds a block with this address whose rule no earlier list has. */
  ghost predicate AddedBy(lists: seq<seq<Cidr>>, i: nat, a: Address)
    requires i < |lists|
  {
    exists c :: c in lists[i] && c.Contains(a) && !RuleOfAny(lists[..i], DropRule(c))
  }

  /** Some list after the first does. */
  ghost predicate AddedLater(lists: seq<seq<Cidr>>, a: Address) {
    exists i :: 1 <= i < |lists| && AddedBy(lists, i, a)
  }

  ghost predicate CleanOfAll(chain: seq<Rule>, lists: seq<seq<Cidr>>) {
    ESTABLISHED_RULE !in chain && forall r :: r in chain ==> !RuleOfAny(lists, r)
  }

  lemma RuleOfAnySplits(lists: seq<seq<Cidr>>, r: Rule)
    requires lists != []
    ensures RuleOfAny(lists, r) <==> RuleOfAny(lists[..|lists| - 1], r) || IsDrop(lists[|lists| - 1], r)
  {
    var front := lists[..|lists| - 1];
    if i :| 0 <= i < |front| && IsDrop(front[i], r) {
      assert IsDrop(lists[i], r);
    }
    if i :| 0 <= i < |lists| && IsDrop(lists[i], r) {
      assert i < |front| ==> IsDrop(front[i], r);
    }
  }

  lemma {:induction false} UpAllHolds(chain: seq<Rule>, lists: seq<seq<Cidr>>, r: Rule)
    ensures r in UpAll(chain, lists) <==> r in chain || RuleOfAny(lists, r) || (lists != [] && r == ESTABLISHED_RULE)
    decreases |lists|
  {
    if lists != [] {
      var front, last := lists[..|lists| - 1], lists[|lists| - 1];
      UpAllHolds(chain, front, r);
      DropsArePresent(UpAll(chain, front), last);
      RuleOfAnySplits(lists, r);
    }
  }

  /** What the last list adds, it adds to all earlier ones. */
  lemma LastAdds(chain: seq<Rule>, lists: seq<seq<Cidr>>, a: Address)
    requires lists != [] && CleanOfAll(chain, lists)
    ensures NewlyListed(UpAll(chain, lists[..|lists| - 1]), lists[|lists| - 1], a) <==> AddedBy(lists, |lists| - 1, a)
  {
    var n := |lists| - 1;
    forall c | c in lists[n]
      ensures DropRule(c) in UpAll(chain, lists[..n]) <==> RuleOfAny(lists[..n], DropRule(c))
    {
      UpAllHolds(chain, lists[..n], DropRule(c));
      assert IsDrop(lists[n], DropRule(c));
      assert RuleOfAny(lists, DropRule(c));
    }
  }

  lemma FrontIsClean(chain: seq<Rule>, lists: seq<seq<Cidr>>)
    requires lists != [] && CleanOfAll(chain, lists)
    ensures CleanOfAll(chain, lists[..|lists| - 1])
  {
    forall r | r in chain ensures !RuleOfAny(lists[..|lists| - 1], r) {
      RuleOfAnySplits(lists, r);
    }
  }

  lemma AddedLaterSplits(lists: seq<seq<Cidr>>, a: Address)
    requires |lists| > 1
    ensures AddedLater(lists, a) <==> AddedLater(lists[..|lists| - 1], a) || AddedBy(lists, |lists| - 1, a)
  {
    var front := lists[..|lists| - 1];
    forall i | 0 <= i < |front| ensures AddedBy(lists, i, a) <==> AddedBy(front, i, a) {
      assert front[..i] == lists[..i] && front[i] == lists[i];
    }
  }

  /** The verdict of every packet after any sequence of `up` calls, each with its own list: what later lists
      add is dropped even if established; below that the first call decides as if it had been the only one. */
  lemma {:induction false} UpAllVerdict(ext: Extensions, chain: seq<Rule>, lists: seq<seq<Cidr>>, p: Packet)
    requires lists != [] && CleanOfAll(chain, lists)
    ensures Verdict(ext, UpAll(chain, lists), p)
         == if FromRunner(p) && AddedLater(lists, p.dst) then Drop
            else if FromRunner(p) && p.established then Return
            else if FromRunner(p) && Listed(lists[0], p.dst) then Drop
            else Verdict(ext, chain, p)
    decreases |lists|
  {
    var front, last := lists[..|lists| - 1], lists[|lists| - 1];
    UpVerdictAnywhere(ext, UpAll(chain, front), last, p);
    LastAdds(chain, lists, p.dst);
    if front == [] {
      assert AddedBy(lists, 0, p.dst) <==> Listed(last, p.dst);
    } else {
      FrontIsClean(chain, lists);
      UpAllVerdict(ext, chain, front, p);
      UpAllHolds(chain, front, ESTABLISHED_RULE);
      AddedLaterSplits(lists, p.dst);
    }
  }

  /** So established runner traffic keeps returning after the second call if and only if its destination
      is in no added block. */
  lemma EstablishedReturnsExactly(ext: Extensions, chain: seq<Rule>, before: seq<Cidr>, after: seq<Cidr>, p: Packet)
    requires Clean(chain, before) && FromRunner(p) && p.established
    ensures Verdict(ext, RulesUp(RulesUp(chain, before), after), p) == Return
       <==> !NewlyListed(RulesUp(chain, before), after, p.dst)
  {
    ChangedListVerdict(ext, chain, before, after, p);
  }

  /** Taking the rules of the old list down first leaves what the new list alone gives. */
  lemma DownBeforeChange(chain: seq<Rule>, before: seq<Cidr>, after: seq<Cidr>)
    requires Clean(chain, before)
    ensures RulesUp(RulesDown(RulesUp(chain, before), before), after) == RulesUp(chain, after)
  {
    DownUndoesUp(chain, before);
    DownIsForeign(chain, before);
    ForeignOfClean(chain, before);
  }

  /** The same after any sequence of calls that ends with `up`; after one that ends with `down`,
      or after none, every packet gets its original verdict. */
  lemma CallsVerdict(ext: Extensions, chain: seq<Rule>, cidrs: seq<Cidr>, ups: seq<bool>, p: Packet)
    requires Clean(chain, cidrs)
    ensures Verdict(ext, Calls(chain, cidrs, ups), p)
         == if ups == [] || !ups[|ups| - 1] then Verdict(ext, chain, p)
            else if FromRunner(p) && p.established then Return
            else if FromRunner(p) && Listed(cidrs, p.dst) then Drop
            else Verdict(ext, chain, p)
  {
    OnlyLastCallCounts(chain, cidrs, ups);
    UpVerdict(ext, chain, cidrs, p);
  }

  // ---- the default list ----

  /** The list spelled out as address ranges. */
  lemma DefaultRanges(a: Address)
    ensures Listed(DEFAULT_DROPS, a) <==>
              || Ip(10, 0, 0, 0) <= a <= Ip(10, 255, 255, 255)
              || Ip(172, 16, 0, 0) <= a <= Ip(172, 31, 255, 255)
              || Ip(192, 168, 0, 0) <= a <= Ip(192, 168, 255, 255)
              || Ip(169, 254, 0, 0) <= a <= Ip(169, 254, 255, 255)
  {
    BlockSizes();
    assert DEFAULT_DROPS[0].Contains(a) <==> Ip(10, 0, 0, 0) <= a <= Ip(10, 255, 255, 255);
    assert DEFAULT_DROPS[1].Contains(a) <==> Ip(172, 16, 0, 0) <= a <= Ip(172, 31, 255, 255);
    assert DEFAULT_DROPS[2].Contains(a) <==> Ip(192, 168, 0, 0) <= a <= Ip(192, 168, 255, 255);
    assert DEFAULT_DROPS[3].Contains(a) <==> Ip(169, 254, 0, 0) <= a <= Ip(169, 254, 255, 255);
    assert forall c :: c in DEFAULT_DROPS ==>
      c == DEFAULT_DROPS[0] || c == DEFAULT_DROPS[1] || c == DEFAULT_DROPS[2] || c == DEFAULT_DROPS[3];
  }

  lemma BlockSizes()
    ensures BlockSize(24) == 0x100 && BlockSize(16) == 0x1_0000 && BlockSize(12) == 0x10_0000
            && BlockSize(10) == 0x40_0000 && BlockSize(8) == 0x100_0000
  {
    assert BlockSize(30) == 4;
    assert BlockSize(28) == 0x10;
    assert BlockSize(26) == 0x40;
    assert BlockSize(24) == 0x100;
    assert BlockSize(22) == 0x400;
    assert BlockSize(20) == 0x1000;
    assert BlockSize(18) == 0x4000;
    assert BlockSize(16) == 0x1_0000;
    assert BlockSize(14) == 0x4_0000;
    assert BlockSize(12) == 0x10_0000;
    assert BlockSize(10) == 0x40_0000;
  }

  /** An address is its four bytes, the first the most significant. */
  lemma IpBytes(a: nat, b: nat, c: nat, d: nat)
    requires a < 256 && b < 256 && c < 256 && d < 256
    ensures Ip(a, b, c, d) == a * 16_777_216 + b * 65_536 + c * 256 + d
  {
  }

  /** Runners are the 256 addresses of 172.31.255.0/24. */
  lemma RunnerRange(p: Packet)
    ensures FromRunner(p) <==> 0xAC1F_FF00 <= p.src <= 0xAC1F_FFFF
    ensures FromRunner(p) <==> Ip(172, 31, 255, 0) <= p.src <= Ip(172, 31, 255, 255)
  {
    BlockSizes();
  }

  /** The default list in hexadecimal. */
  lemma DefaultRangesInHex(a: Address)
    ensures Listed(DEFAULT_DROPS, a) <==>
              || 0x0A00_0000 <= a <= 0x0AFF_FFFF || 0xAC10_0000 <= a <= 0xAC1F_FFFF
              || 0xC0A8_0000 <= a <= 0xC0A8_FFFF || 0xA9FE_0000 <= a <= 0xA9FE_FFFF
  {
    hide Listed;
    DefaultRanges(a);
  }

  /** The block the rules file offers to opt in to. */
  const CGNAT := Cidr(Ip(100, 64, 0, 0), 10)

  lemma NotInserted(cidrs: seq<Cidr>, r: Rule)
    requires !IsDrop(cidrs, r) && r != ESTABLISHED_RULE
    ensures r !in RulesUp([], cidrs)
  {
    DropsArePresent([], cidrs);
  }

  lemma DefaultBits(c: Cidr)
    requires c in DEFAULT_DROPS
    ensures c.bits != CGNAT.bits
  {
    hide BlockSize;
  }

  lemma CgnatIsNew()
    ensures DropRule(CGNAT) !in RulesUp([], DEFAULT_DROPS)
  {
    hide BlockSize, DropRule, RulesUp;
    forall c | c in DEFAULT_DROPS ensures DropRule(c) != DropRule(CGNAT) {
      DefaultBits(c);
      DropRuleBits(c);
      DropRuleBits(CGNAT);
    }
    DropRuleBits(CGNAT);
    NotInserted(DEFAULT_DROPS, DropRule(CGNAT));
  }

  lemma DropRuleBits(c: Cidr)
    ensures DropRule(c).dst.Some? && DropRule(c).dst.value.bits == c.bits
  {
  }

  lemma CgnatRange(a: Address)
    ensures CGNAT.Contains(a) <==> Ip(100, 64, 0, 0) <= a <= Ip(100, 127, 255, 255)
  {
    BlockSizes();
  }

  /** Opting in to it and running `up` again, without `down`, drops what a runner sends on connections to
      there that are already open; on a fresh chain the same list lets it return. */
  lemma OptInDropsEstablished(ext: Extensions, p: Packet)
    requires Ip(172, 31, 255, 0) <= p.src <= Ip(172, 31, 255, 255) && p.established
    requires Ip(100, 64, 0, 0) <= p.dst <= Ip(100, 127, 255, 255)
    ensures Verdict(ext, RulesUp(RulesUp([], DEFAULT_DROPS), DEFAULT_DROPS + [CGNAT]), p) == Drop
    ensures Verdict(ext, RulesUp([], DEFAULT_DROPS + [CGNAT]), p) == Return
  {
    hide BlockSize, DropRule, RulesUp, Verdict;
    var list := DEFAULT_DROPS + [CGNAT];
    CgnatIsNew();
    CgnatRange(p.dst);
    RunnerRange(p);
    assert CGNAT in list;
    ChangedListVerdict(ext, [], DEFAULT_DROPS, list, p);
    UpVerdict(ext, [], list, p);
  }

  /** Every packet under the default list, in addresses: what a runner sends anew to a private, link-local
      or metadata address is dropped, its established traffic returns, all else is as it was. */
  lemma DefaultVerdict(ext: Extensions, chain: seq<Rule>, ups: seq<bool>, p: Packet)
    requires Clean(chain, DEFAULT_DROPS) && ups != [] && ups[|ups| - 1]
    ensures var runner := 0xAC1F_FF00 <= p.src <= 0xAC1F_FFFF;
            var private := || 0x0A00_0000 <= p.dst <= 0x0AFF_FFFF || 0xAC10_0000 <= p.dst <= 0xAC1F_FFFF
                           || 0xC0A8_0000 <= p.dst <= 0xC0A8_FFFF || 0xA9FE_0000 <= p.dst <= 0xA9FE_FFFF;
            Verdict(ext, Calls(chain, DEFAULT_DROPS, ups), p)
            == if runner && p.established then Return else if runner && private then Drop else Verdict(ext, chain, p)
  {
    hide Verdict, Calls, Listed, FromRunner;
    CallsVerdict(ext, chain, DEFAULT_DROPS, ups, p);
    DefaultRangesInHex(p.dst);
    RunnerRange(p);
  }

  /** New traffic between two runners is dropped, and so is traffic to the metadata service, because
      the runner subnet lies inside a listed range; established traffic returns. */
  lemma RunnersAreIsolated(ext: Extensions, chain: seq<Rule>, ups: seq<bool>, p: Packet)
    requires Clean(chain, DEFAULT_DROPS) && ups != [] && ups[|ups| - 1]
    requires Ip(172, 31, 255, 0) <= p.src <= Ip(172, 31, 255, 255)
    requires Ip(172, 31, 255, 0) <= p.dst <= Ip(172, 31, 255, 255) || p.dst == Ip(169, 254, 169, 254)
    ensures Verdict(ext, Calls(chain, DEFAULT_DROPS, ups), p) == if p.established then Return else Drop
  {
    CallsVerdict(ext, chain, DEFAULT_DROPS, ups, p);
    DefaultRanges(p.dst);
    RunnerRange(p);
  }
}
