/** Comma-separated environment variables: split at commas, trim each piece, drop the empty ones. */
module EnvCsv {

  /** White space as Unicode defines it. */
  predicate IsSpace(c: char) {
    || c == '\t' || c == '\n' || c == '\U{0B}' || c == '\U{0C}' || c == '\r' || c == ' '
    || c == '\U{85}' || c == '\U{A0}' || c == '\U{1680}' || '\U{2000}' <= c <= '\U{200A}'
    || c == '\U{2028}' || c == '\U{2029}' || c == '\U{202F}' || c == '\U{205F}' || c == '\U{3000}'
  }

  /** The same by code point: controls 9 to 13, space, and the further spaces and separators. */
  lemma SpacesByCode(c: char)
    ensures IsSpace(c) <==>
              || 9 <= c as int <= 13 || 0x2000 <= c as int <= 0x200A
              || c as int in {32, 0x85, 0xA0, 0x1680, 0x2028, 0x2029, 0x202F, 0x205F, 0x3000}
  {
  }

  function TrimLeft(s: string): string
    decreases |s|
  {
    if s != "" && IsSpace(s[0]) then TrimLeft(s[1..]) else s
  }

  function TrimRight(s: string): string
    decreases |s|
  {
    if s != "" && IsSpace(s[|s| - 1]) then TrimRight(s[..|s| - 1]) else s
  }

  function Trim(s: string): string {
    TrimRight(TrimLeft(s))
  }

  predicate AllSpace(s: string) {
    forall i :: 0 <= i < |s| ==> IsSpace(s[i])
  }

  /** No white space at either end. */
  predicate Tight(s: string) {
    s != "" ==> !IsSpace(s[0]) && !IsSpace(s[|s| - 1])
  }

  /** The pieces between commas; a text without one is one piece. */
  function Pieces(s: string): (ps: seq<string>)
    ensures ps != []
    decreases |s|
  {
    if s == "" then [""]
    else if s[0] == ',' then [""] + Pieces(s[1..])
    else
      var rest := Pieces(s[1..]);
      [[s[0]] + rest[0]] + rest[1..]
  }

  function Kept(ps: seq<string>): seq<string>
    decreases |ps|
  {
    if ps == [] then []
    else (if Trim(ps[0]) != "" then [Trim(ps[0])] else []) + Kept(ps[1..])
  }

  function Csv(v: string): seq<string> {
    Kept(Pieces(v))
  }

  function WithCommas(ls: seq<string>): string
    decreases |ls|
  {
    if ls == [] then "" else if |ls| == 1 then ls[0] else ls[0] + "," + WithCommas(ls[1..])
  }

  /** value is what the environment holds, empty when the variable is not set. */
  method GetEnvCSV(value: string, def: string) returns (out: seq<string>)
    ensures out == Csv(if value == "" then def else value)
  {
    var v := value;
    if v == "" {
      v := def;
    }
    var ps := Pieces(v);
    out := [];
    var i := 0;
    while i < |ps|
      invariant 0 <= i <= |ps| && out == Kept(ps[..i])
    {
      KeptGrows(ps, i);
      var p := Trim(ps[i]);
      if p != "" {
        out := out + [p];
      }
      i := i + 1;
    }
    assert ps[..|ps|] == ps;
  }

  lemma KeptGrows(ps: seq<string>, i: nat)
    requires i < |ps|
    ensures Kept(ps[..i + 1]) == if Trim(ps[i]) != "" then Kept(ps[..i]) + [Trim(ps[i])] else Kept(ps[..i])
  {
    hide Trim;
    assert ps[..i + 1] == ps[..i] + [ps[i]];
    KeptConcat(ps[..i], [ps[i]]);
    KeptOne(ps[i]);
  }

  lemma KeptOne(p: string)
    ensures Kept([p]) == if Trim(p) != "" then [Trim(p)] else []
  {
    hide Trim;
    assert [p][1..] == [];
  }

  // ---- trimming ----

  lemma {:induction false} TrimLeftMeaning(s: string)
    ensures var t := TrimLeft(s);
            |t| <= |s| && s[|s| - |t|..] == t && AllSpace(s[..|s| - |t|]) && (t != "" ==> !IsSpace(t[0]))
    decreases |s|
  {
    if s != "" && IsSpace(s[0]) {
      TrimLeftMeaning(s[1..]);
      var t := TrimLeft(s);
      assert s[1..][|s| - 1 - |t|..] == s[|s| - |t|..];
      assert forall i :: 0 < i < |s| - |t| ==> s[i] == s[1..][..|s| - 1 - |t|][i - 1];
    }
  }

  lemma {:induction false} TrimRightMeaning(s: string)
    ensures var t := TrimRight(s);
            |t| <= |s| && s[..|t|] == t && AllSpace(s[|t|..]) && (t != "" ==> !IsSpace(t[|t| - 1]))
    decreases |s|
  {
    if s != "" && IsSpace(s[|s| - 1]) {
      TrimRightMeaning(s[..|s| - 1]);
      var t := TrimRight(s);
      assert s[..|s| - 1][..|t|] == s[..|t|];
      assert forall i :: |t| <= i < |s| - 1 ==> s[i] == s[..|s| - 1][|t|..][i - |t|];
    }
  }

  /** Trimming takes away white space at both ends and nothing else, and leaves none there. */
  lemma TrimMeaning(s: string)
    ensures Tight(Trim(s))
    ensures exists a, b :: AllSpace(a) && AllSpace(b) && s == a + Trim(s) + b
  {
    TrimLeftMeaning(s);
    var l := TrimLeft(s);
    TrimRightMeaning(l);
    var t := Trim(s);
    if t != "" {
      assert t[0] == l[0];
    }
    assert l == t + l[|t|..];
    assert s == s[..|s| - |l|] + t + l[|t|..];
  }

  lemma TrimOfTight(s: string)
    requires Tight(s)
    ensures Trim(s) == s
  {
  }

  // ---- the list ----

  predicate Good(p: string) {
    p != "" && Tight(p) && ',' !in p
  }

  lemma {:induction false} PiecesAreCommaFree(s: string)
    ensures forall i :: 0 <= i < |Pieces(s)| ==> ',' !in Pieces(s)[i]
    decreases |s|
  {
    if s != "" {
      PiecesAreCommaFree(s[1..]);
    }
  }

  lemma {:induction false} KeptAreGood(ps: seq<string>)
    requires forall i :: 0 <= i < |ps| ==> ',' !in ps[i]
    ensures forall i :: 0 <= i < |Kept(ps)| ==> Good(Kept(ps)[i])
    decreases |ps|
  {
    if ps != [] {
      KeptAreGood(ps[1..]);
      TrimMeaning(ps[0]);
      var a, b :| AllSpace(a) && AllSpace(b) && ps[0] == a + Trim(ps[0]) + b;
      assert forall c :: c in Trim(ps[0]) ==> c in ps[0];
    }
  }

  /** Every entry is non-empty, trimmed and free of commas. */
  lemma EntriesAreGood(v: string)
    ensures forall i :: 0 <= i < |Csv(v)| ==> Good(Csv(v)[i])
  {
    PiecesAreCommaFree(v);
    KeptAreGood(Pieces(v));
  }

  lemma {:induction false} PiecesConcat(a: string, b: string)
    ensures Pieces(a + "," + b) == Pieces(a) + Pieces(b)
    decreases |a|
  {
    var s := a + "," + b;
    if a == "" {
      assert s == "," + b && s[1..] == b;
    } else {
      assert s[1..] == a[1..] + "," + b && s[0] == a[0];
      PiecesConcat(a[1..], b);
    }
  }

  lemma {:induction false} KeptConcat(xs: seq<string>, ys: seq<string>)
    ensures Kept(xs + ys) == Kept(xs) + Kept(ys)
    decreases |xs|
  {
    if xs == [] {
      assert xs + ys == ys;
    } else {
      assert (xs + ys)[1..] == xs[1..] + ys;
      KeptConcat(xs[1..], ys);
    }
  }

  /** A comma separates: the entries of the whole are those of the left part, then those of the right. */
  lemma CsvConcat(a: string, b: string)
    ensures Csv(a + "," + b) == Csv(a) + Csv(b)
  {
    PiecesConcat(a, b);
    KeptConcat(Pieces(a), Pieces(b));
  }

  lemma {:induction false} OnePiece(s: string)
    requires ',' !in s
    ensures Pieces(s) == [s]
    decreases |s|
  {
    if s != "" {
      OnePiece(s[1..]);
      assert [s[0]] + s[1..] == s;
    }
  }

  /** A text without commas is one entry, trimmed, or none. */
  lemma CsvSingle(s: string)
    requires ',' !in s
    ensures Csv(s) == if Trim(s) == "" then [] else [Trim(s)]
  {
    OnePiece(s);
    assert Kept([s]) == (if Trim(s) != "" then [Trim(s)] else []) + Kept([]);
  }

  lemma {:induction false} CsvOfJoined(ls: seq<string>)
    requires forall i :: 0 <= i < |ls| ==> Good(ls[i])
    ensures Csv(WithCommas(ls)) == ls
    ensures ls != [] ==> WithCommas(ls) != ""
    decreases |ls|
  {
    if ls == [] {
      CsvSingle("");
    } else {
      CsvSingle(ls[0]);
      TrimOfTight(ls[0]);
      if |ls| > 1 {
        CsvOfJoined(ls[1..]);
        CsvConcat(ls[0], WithCommas(ls[1..]));
      }
    }
  }

  /** Writing a non-empty result back with commas and reading it again, whatever the default, gives
      the same list. */
  lemma RereadIsStable(value: string, def: string, other: string)
    ensures var r := Csv(if value == "" then def else value);
            r != [] ==> Csv(if WithCommas(r) == "" then other else WithCommas(r)) == r
  {
    var r := Csv(if value == "" then def else value);
    EntriesAreGood(if value == "" then def else value);
    CsvOfJoined(r);
  }
}
