/**
 * Reading the batch statement's text back. The source interpolates values
 * with `fmt.Sprintf` and escapes nothing, so the text determines the
 * statement only when no value or chain contains a single quote, no column
 * contains a space and the table name contains no space. Under those
 * conditions `ParseBatch` recovers exactly the statement that was rendered.
 */
module SqlParse {
  import opened Wrappers
  import opened Text
  import opened Sql

  predicate StartsWith(s: string, p: string) {
    |p| <= |s| && s[..|p|] == p
  }

  function DigitValue(c: char): nat
    requires IsDigit(c)
  {
    c as int - '0' as int
  }

  /** The value of a string of decimal digits. */
  function ValueOf(d: string): nat
    requires forall i :: 0 <= i < |d| ==> IsDigit(d[i])
  {
    if |d| == 0 then 0 else ValueOf(d[..|d| - 1]) * 10 + DigitValue(d[|d| - 1])
  }

  function LeadingDigits(s: string): (k: nat)
    ensures k <= |s|
    ensures forall i :: 0 <= i < k ==> IsDigit(s[i])
    ensures k < |s| ==> !IsDigit(s[k])
  {
    if |s| > 0 && IsDigit(s[0]) then 1 + LeadingDigits(s[1..]) else 0
  }

  function ParseNat(s: string): (r: Option<(nat, string)>)
    ensures r.Some? ==> |r.value.1| < |s|
  {
    var k := LeadingDigits(s);
    if k == 0 then None else Some((ValueOf(s[..k]), s[k..]))
  }

  /** Splits `s` before the first `c`. */
  function TakeUntil(s: string, c: char): (r: (string, string))
    ensures r.0 + r.1 == s
  {
    if |s| == 0 || s[0] == c then ("", s)
    else
      var (a, b) := TakeUntil(s[1..], c);
      ([s[0]] + a, b)
  }

  const WhenTok := " WHEN "
  const ThenTok := " THEN '"
  const CaseTok := " = CASE sid "
  const EndTok := " END"
  const WhereTok := " WHERE chain = '"
  const InTok := "' AND sid IN ("

  function ParseArms(s: string): (r: Option<(seq<WhenArm>, string)>)
    ensures r.Some? ==> |r.value.1| <= |s|
    decreases |s|
  {
    if !StartsWith(s, WhenTok) then Some(([], s))
    else
      match ParseNat(s[|WhenTok|..])
      case None => None
      case Some((n, r1)) =>
        if !StartsWith(r1, ThenTok) then None
        else
          var (text, r2) := TakeUntil(r1[|ThenTok|..], '\'');
          if !StartsWith(r2, "'") then None
          else
            match ParseArms(r2[1..])
            case None => None
            case Some((arms, r3)) => Some(([WhenArm(n, text)] + arms, r3))
  }

  function ParseClause(s: string): (r: Option<(CaseClause, string)>)
    ensures r.Some? ==> |r.value.1| < |s|
  {
    if !StartsWith(s, " ") then None
    else
      var (column, r1) := TakeUntil(s[1..], ' ');
      if !StartsWith(r1, CaseTok) then None
      else
        match ParseArms(r1[|CaseTok|..])
        case None => None
        case Some((arms, r2)) =>
          if !StartsWith(r2, EndTok) then None else Some((CaseClause(column, arms), r2[|EndTok|..]))
  }

  function ParseMoreClauses(s: string): (r: Option<(seq<CaseClause>, string)>)
    decreases |s|
  {
    if !StartsWith(s, ",") then Some(([], s))
    else
      match ParseClause(s[1..])
      case None => None
      case Some((c, r1)) =>
        match ParseMoreClauses(r1)
        case None => None
        case Some((cs, r2)) => Some(([c] + cs, r2))
  }

  function ParseClauses(s: string): Option<(seq<CaseClause>, string)> {
    match ParseClause(s)
    case None => Some(([], s))
    case Some((c, r1)) =>
      match ParseMoreClauses(r1)
      case None => None
      case Some((cs, r2)) => Some(([c] + cs, r2))
  }

  function ParseMoreIds(s: string): (r: Option<(seq<nat>, string)>)
    decreases |s|
  {
    if !StartsWith(s, ",") then Some(([], s))
    else
      match ParseNat(s[1..])
      case None => None
      case Some((n, r1)) =>
        match ParseMoreIds(r1)
        case None => None
        case Some((ns, r2)) => Some(([n] + ns, r2))
  }

  function ParseIds(s: string): Option<(seq<nat>, string)> {
    match ParseNat(s)
    case None => Some(([], s))
    case Some((n, r1)) =>
      match ParseMoreIds(r1)
      case None => None
      case Some((ns, r2)) => Some(([n] + ns, r2))
  }

  function ParseBatch(sql: string): Option<BatchUpdate> {
    if !StartsWith(sql, "UPDATE ") then None
    else
      var (table, r1) := TakeUntil(sql[7..], ' ');
      if !StartsWith(r1, " SET ") then None
      else
        match ParseClauses(r1[5..])
        case None => None
        case Some((clauses, r2)) => ParseWhere(table, clauses, r2)
  }

  /** The WHERE part, once the table and the CASE clauses are read. */
  function ParseWhere(table: string, clauses: seq<CaseClause>, s: string): Option<BatchUpdate> {
    if !StartsWith(s, WhereTok) then None
    else
      var (chain, r1) := TakeUntil(s[|WhereTok|..], '\'');
      if !StartsWith(r1, InTok) then None
      else
        match ParseIds(r1[|InTok|..])
        case None => None
        case Some((ids, r2)) => if r2 == ")" then Some(BatchUpdate(table, chain, clauses, ids)) else None
  }

  /** The conditions under which the unescaped text is unambiguous. */
  predicate Readable(b: BatchUpdate) {
    && ' ' !in b.table
    && '\'' !in b.chain
    && ClausesReadable(b.clauses)
  }

  predicate ClauseReadable(c: CaseClause) {
    && ' ' !in c.column
    && forall j :: 0 <= j < |c.arms| ==> '\'' !in c.arms[j].text
  }

  predicate ClausesReadable(cs: seq<CaseClause>) {
    forall i :: 0 <= i < |cs| ==> ClauseReadable(cs[i])
  }

  lemma {:induction false} ReadableSplit(cs: seq<CaseClause>)
    requires |cs| > 0 && ClausesReadable(cs)
    ensures ClauseReadable(cs[0]) && ClausesReadable(cs[1..])
  {
    assert forall i :: 0 <= i < |cs| - 1 ==> cs[1..][i] == cs[i + 1];
  }

  // ---------------------------------------------------------------------
  // Round trips, piece by piece
  // ---------------------------------------------------------------------

  lemma {:induction false} StartsWithAppend(p: string, x: string)
    ensures StartsWith(p + x, p) && (p + x)[|p|..] == x
  {
    assert (p + x)[..|p|] == p;
  }

  lemma {:induction false} ValueOfRender(n: nat)
    ensures ValueOf(NatToString(n)) == n
  {
    var s := NatToString(n);
    if n >= 10 {
      ValueOfRender(n / 10);
      assert s[..|s| - 1] == NatToString(n / 10);
    }
  }

  lemma {:induction false} LeadingDigitsOf(d: string, rest: string)
    requires forall i :: 0 <= i < |d| ==> IsDigit(d[i])
    requires |rest| == 0 || !IsDigit(rest[0])
    ensures LeadingDigits(d + rest) == |d|
  {
    if |d| > 0 {
      assert (d + rest)[1..] == d[1..] + rest;
      LeadingDigitsOf(d[1..], rest);
    } else {
      assert d + rest == rest;
    }
  }

  lemma {:induction false} ParseNatRender(n: nat, rest: string)
    requires |rest| == 0 || !IsDigit(rest[0])
    ensures ParseNat(NatToString(n) + rest) == Some((n, rest))
  {
    var d := NatToString(n);
    LeadingDigitsOf(d, rest);
    assert (d + rest)[..|d|] == d;
    assert (d + rest)[|d|..] == rest;
    ValueOfRender(n);
  }

  lemma {:induction false} TakeUntilOf(a: string, rest: string, c: char)
    requires c !in a
    requires |rest| == 0 || rest[0] == c
    ensures TakeUntil(a + rest, c) == (a, rest)
  {
    if |a| == 0 {
      assert a + rest == rest;
    } else {
      assert (a + rest)[1..] == a[1..] + rest;
      assert (a + rest)[0] == a[0];
      assert c !in a[1..] by {
        assert forall i :: 0 <= i < |a| - 1 ==> a[1..][i] == a[i + 1];
      }
      TakeUntilOf(a[1..], rest, c);
      assert [a[0]] + a[1..] == a;
    }
  }

  lemma {:induction false} ArmsRoundTrip(arms: seq<WhenArm>, rest: string)
    requires forall j :: 0 <= j < |arms| ==> '\'' !in arms[j].text
    requires !StartsWith(rest, WhenTok)
    ensures ParseArms(RenderArms(arms) + rest) == Some((arms, rest))
  {
    if |arms| == 0 {
      assert RenderArms(arms) + rest == rest;
    } else {
      ArmsRoundTrip(arms[1..], rest);
      ArmsCons(arms[0], arms[1..], rest);
      assert [arms[0]] + arms[1..] == arms;
    }
  }

  /** One more WHEN arm in front of arms that already parse back. */
  lemma {:induction false} ArmsCons(a: WhenArm, arms: seq<WhenArm>, rest: string)
    requires '\'' !in a.text
    requires ParseArms(RenderArms(arms) + rest) == Some((arms, rest))
    ensures ParseArms(RenderArms([a] + arms) + rest) == Some(([a] + arms, rest))
  {
    ArmsHead(a, arms, rest);
    ArmParse(a.sid, a.text, RenderArms(arms) + rest, arms, rest);
  }

  /** The parser reads one rendered WHEN arm and hands the remainder on. */
  lemma {:induction false} ArmParse(n: nat, text: string, tail: string, arms: seq<WhenArm>, rest: string)
    requires '\'' !in text
    requires ParseArms(tail) == Some((arms, rest))
    ensures ParseArms(WhenTok + (NatToString(n) + (ThenTok + (text + ("'" + tail)))))
         == Some(([WhenArm(n, text)] + arms, rest))
  {
    var x3 := "'" + tail;
    var x2 := text + x3;
    var x1 := ThenTok + x2;
    var s := WhenTok + (NatToString(n) + x1);
    assert StartsWith(s, WhenTok) && s[|WhenTok|..] == NatToString(n) + x1 by {
      StartsWithAppend(WhenTok, NatToString(n) + x1);
    }
    assert ParseNat(NatToString(n) + x1) == Some((n, x1)) by {
      ParseNatRender(n, x1);
    }
    assert StartsWith(x1, ThenTok) && x1[|ThenTok|..] == x2 by {
      StartsWithAppend(ThenTok, x2);
    }
    assert TakeUntil(x2, '\'') == (text, x3) by {
      TakeUntilOf(text, x3, '\'');
    }
    assert StartsWith(x3, "'") && x3[1..] == tail by {
      StartsWithAppend("'", tail);
    }
    ArmStep(s, n, x1, x2, text, x3, arms, rest);
  }

  lemma ArmsHead(a: WhenArm, arms: seq<WhenArm>, rest: string)
    ensures RenderArms([a] + arms) + rest
         == WhenTok + (NatToString(a.sid) + (ThenTok + (a.text + ("'" + (RenderArms(arms) + rest)))))
  {
    assert ([a] + arms)[1..] == arms;
    Regroup(WhenTok, NatToString(a.sid), ThenTok, a.text, "'", RenderArms(arms) + rest);
  }

  /** Moving a suffix into a right-nested concatenation. */
  lemma Regroup(p: string, q: string, r: string, t: string, u: string, v: string)
    ensures (p + (q + (r + (t + u)))) + v == p + (q + (r + (t + (u + v))))
  {
  }

  lemma {:induction false} ArmStep(s: string, n: nat, r1: string, r1': string, text: string, r2: string,
                                   arms: seq<WhenArm>, r3: string)
    requires StartsWith(s, WhenTok) && ParseNat(s[|WhenTok|..]) == Some((n, r1))
    requires StartsWith(r1, ThenTok) && r1[|ThenTok|..] == r1' && TakeUntil(r1', '\'') == (text, r2)
    requires StartsWith(r2, "'") && ParseArms(r2[1..]) == Some((arms, r3))
    ensures ParseArms(s) == Some(([WhenArm(n, text)] + arms, r3))
  {
  }

  lemma {:induction false} ClauseRoundTrip(c: CaseClause, rest: string)
    requires ClauseReadable(c)
    ensures ParseClause(RenderClause(c) + rest) == Some((c, rest))
  {
    var x3 := EndTok + rest;
    var x2 := RenderArms(c.arms) + x3;
    var x1 := CaseTok + x2;
    var s := " " + (c.column + x1);
    assert RenderClause(c) + rest == s;
    StartsWithAppend(" ", c.column + x1);
    TakeUntilOf(c.column, x1, ' ');
    StartsWithAppend(CaseTok, x2);
    assert !StartsWith(x3, WhenTok) by {
      assert x3[1] == 'E';
    }
    ArmsRoundTrip(c.arms, x3);
    StartsWithAppend(EndTok, rest);
  }

  /** The WHERE clause is not mistaken for one more CASE clause. */
  lemma {:induction false} WhereIsNoClause(rest: string)
    requires StartsWith(rest, WhereTok)
    ensures ParseClause(rest) == None
  {
    var after := rest[6..];
    assert rest[1..] == "WHERE" + after;
    assert after[0] == ' ';
    TakeUntilOf("WHERE", after, ' ');
    assert after[1] == 'c';
  }

  /** The first part of a join, and all that follows it. */
  lemma {:induction false} JoinHead(ps: seq<string>, rest: string)
    requires |ps| > 0
    ensures Join(ps, ",") + rest == ps[0] + (Prefixed(ps[1..], ",") + rest)
  {
  }

  lemma {:induction false} PrefixedHead(ps: seq<string>, rest: string)
    requires |ps| > 0
    ensures Prefixed(ps, ",") + rest == "," + (ps[0] + (Prefixed(ps[1..], ",") + rest))
  {
  }

  lemma {:induction false} RenderClausesHead(cs: seq<CaseClause>)
    requires |cs| > 0
    ensures RenderClauses(cs)[0] == RenderClause(cs[0]) && RenderClauses(cs)[1..] == RenderClauses(cs[1..])
  {
  }

  lemma {:induction false} RenderIdsHead(ids: seq<nat>)
    requires |ids| > 0
    ensures RenderIds(ids)[0] == NatToString(ids[0]) && RenderIds(ids)[1..] == RenderIds(ids[1..])
  {
  }

  lemma {:induction false} MoreClausesStep(s: string, c: CaseClause, tail: string, cs: seq<CaseClause>, r: string)
    requires StartsWith(s, ",") && ParseClause(s[1..]) == Some((c, tail))
    requires ParseMoreClauses(tail) == Some((cs, r))
    ensures ParseMoreClauses(s) == Some(([c] + cs, r))
  {
  }

  lemma {:induction false} MoreClausesRoundTrip(cs: seq<CaseClause>, rest: string)
    requires ClausesReadable(cs)
    requires !StartsWith(rest, ",")
    ensures ParseMoreClauses(Prefixed(RenderClauses(cs), ",") + rest) == Some((cs, rest))
  {
    if |cs| == 0 {
      assert Prefixed(RenderClauses(cs), ",") + rest == rest;
    } else {
      ReadableSplit(cs);
      MoreClausesRoundTrip(cs[1..], rest);
      MoreClausesCons(cs[0], cs[1..], rest);
      assert [cs[0]] + cs[1..] == cs;
    }
  }

  /** One more comma-separated clause in front of a list that already parses back. */
  lemma {:induction false} MoreClausesCons(c: CaseClause, cs: seq<CaseClause>, rest: string)
    requires ClauseReadable(c)
    requires ParseMoreClauses(Prefixed(RenderClauses(cs), ",") + rest) == Some((cs, rest))
    ensures ParseMoreClauses(Prefixed(RenderClauses([c] + cs), ",") + rest) == Some(([c] + cs, rest))
  {
    var tail := Prefixed(RenderClauses(cs), ",") + rest;
    assert Prefixed(RenderClauses([c] + cs), ",") + rest == "," + (RenderClause(c) + tail) by {
      RenderClausesHead([c] + cs);
      assert ([c] + cs)[1..] == cs;
      PrefixedHead(RenderClauses([c] + cs), rest);
    }
    assert ParseClause(RenderClause(c) + tail) == Some((c, tail)) by {
      ClauseRoundTrip(c, tail);
    }
    MoreGlue(RenderClause(c), tail, c, cs, rest);
  }

  lemma {:induction false} MoreGlue(head: string, tail: string, c: CaseClause, cs: seq<CaseClause>, r: string)
    requires ParseClause(head + tail) == Some((c, tail))
    requires ParseMoreClauses(tail) == Some((cs, r))
    ensures ParseMoreClauses("," + (head + tail)) == Some(([c] + cs, r))
  {
    StartsWithAppend(",", head + tail);
  }

  lemma {:induction false} ClausesStep(s: string, c: CaseClause, tail: string, cs: seq<CaseClause>, r: string)
    requires ParseClause(s) == Some((c, tail))
    requires ParseMoreClauses(tail) == Some((cs, r))
    ensures ParseClauses(s) == Some(([c] + cs, r))
  {
  }

  lemma {:induction false} NoClauses(rest: string)
    requires StartsWith(rest, WhereTok)
    ensures ParseClauses(rest) == Some(([], rest))
  {
    WhereIsNoClause(rest);
  }

  lemma {:induction false} SomeClauses(cs: seq<CaseClause>, rest: string)
    requires |cs| > 0 && ClausesReadable(cs)
    requires StartsWith(rest, WhereTok)
    ensures ParseClauses(Join(RenderClauses(cs), ",") + rest) == Some((cs, rest))
  {
    ReadableSplit(cs);
    assert rest[0] == ' ';
    MoreClausesRoundTrip(cs[1..], rest);
    FirstClause(cs[0], cs[1..], rest);
    assert [cs[0]] + cs[1..] == cs;
  }

  /** The first clause, followed by the others that already parse back. */
  lemma {:induction false} FirstClause(c: CaseClause, cs: seq<CaseClause>, rest: string)
    requires ClauseReadable(c)
    requires ParseMoreClauses(Prefixed(RenderClauses(cs), ",") + rest) == Some((cs, rest))
    ensures ParseClauses(Join(RenderClauses([c] + cs), ",") + rest) == Some(([c] + cs, rest))
  {
    var tail := Prefixed(RenderClauses(cs), ",") + rest;
    assert Join(RenderClauses([c] + cs), ",") + rest == RenderClause(c) + tail by {
      RenderClausesHead([c] + cs);
      assert ([c] + cs)[1..] == cs;
      JoinHead(RenderClauses([c] + cs), rest);
    }
    assert ParseClause(RenderClause(c) + tail) == Some((c, tail)) by {
      ClauseRoundTrip(c, tail);
    }
    ClausesStep(RenderClause(c) + tail, c, tail, cs, rest);
  }

  lemma {:induction false} ClausesRoundTrip(cs: seq<CaseClause>, rest: string)
    requires ClausesReadable(cs)
    requires StartsWith(rest, WhereTok)
    ensures ParseClauses(Join(RenderClauses(cs), ",") + rest) == Some((cs, rest))
  {
    if |cs| == 0 {
      assert Join(RenderClauses(cs), ",") + rest == rest;
      NoClauses(rest);
    } else {
      SomeClauses(cs, rest);
    }
  }

  lemma {:induction false} MoreIdsStep(s: string, n: nat, tail: string, ns: seq<nat>, r: string)
    requires StartsWith(s, ",") && ParseNat(s[1..]) == Some((n, tail))
    requires ParseMoreIds(tail) == Some((ns, r))
    ensures ParseMoreIds(s) == Some(([n] + ns, r))
  {
  }

  lemma {:induction false} MoreIdsRoundTrip(ids: seq<nat>, rest: string)
    requires StartsWith(rest, ")")
    ensures ParseMoreIds(Prefixed(RenderIds(ids), ",") + rest) == Some((ids, rest))
  {
    if |ids| == 0 {
      assert Prefixed(RenderIds(ids), ",") + rest == rest;
    } else {
      MoreIdsRoundTrip(ids[1..], rest);
      MoreIdsCons(ids[0], ids[1..], rest);
      assert [ids[0]] + ids[1..] == ids;
    }
  }

  /** One more comma-separated sid in front of a list that already parses back. */
  lemma {:induction false} MoreIdsCons(n: nat, ids: seq<nat>, rest: string)
    requires StartsWith(rest, ")")
    requires ParseMoreIds(Prefixed(RenderIds(ids), ",") + rest) == Some((ids, rest))
    ensures ParseMoreIds(Prefixed(RenderIds([n] + ids), ",") + rest) == Some(([n] + ids, rest))
  {
    var tail := Prefixed(RenderIds(ids), ",") + rest;
    var body := NatToString(n) + tail;
    var s := Prefixed(RenderIds([n] + ids), ",") + rest;
    assert StartsWith(s, ",") && s[1..] == body by {
      RenderIdsHead([n] + ids);
      assert ([n] + ids)[1..] == ids;
      PrefixedHead(RenderIds([n] + ids), rest);
      StartsWithAppend(",", body);
    }
    assert ParseNat(body) == Some((n, tail)) by {
      AfterId(RenderIds(ids), rest);
      ParseNatRender(n, tail);
    }
    MoreIdsStep(s, n, tail, ids, rest);
  }

  /** What follows a number in the rendered IN list: a comma or the closing text. */
  lemma {:induction false} AfterId(ps: seq<string>, rest: string)
    requires StartsWith(rest, ")")
    ensures var tail := Prefixed(ps, ",") + rest; |tail| > 0 && !IsDigit(tail[0])
  {
    if |ps| > 0 {
      assert (Prefixed(ps, ",") + rest)[0] == ',';
    } else {
      assert Prefixed(ps, ",") + rest == rest;
    }
  }

  lemma {:induction false} IdsStep(s: string, n: nat, tail: string, ns: seq<nat>, r: string)
    requires ParseNat(s) == Some((n, tail))
    requires ParseMoreIds(tail) == Some((ns, r))
    ensures ParseIds(s) == Some(([n] + ns, r))
  {
  }

  lemma {:induction false} NoIds(rest: string)
    requires StartsWith(rest, ")")
    ensures ParseIds(rest) == Some(([], rest))
  {
    assert rest[0] == ')';
  }

  lemma {:induction false} IdsRoundTrip(ids: seq<nat>, rest: string)
    requires StartsWith(rest, ")")
    ensures ParseIds(Join(RenderIds(ids), ",") + rest) == Some((ids, rest))
  {
    if |ids| == 0 {
      assert Join(RenderIds(ids), ",") + rest == rest;
      NoIds(rest);
    } else {
      MoreIdsRoundTrip(ids[1..], rest);
      FirstId(ids[0], ids[1..], rest);
      assert [ids[0]] + ids[1..] == ids;
    }
  }

  /** The first sid, followed by the others that already parse back. */
  lemma {:induction false} FirstId(n: nat, ids: seq<nat>, rest: string)
    requires StartsWith(rest, ")")
    requires ParseMoreIds(Prefixed(RenderIds(ids), ",") + rest) == Some((ids, rest))
    ensures ParseIds(Join(RenderIds([n] + ids), ",") + rest) == Some(([n] + ids, rest))
  {
    var tail := Prefixed(RenderIds(ids), ",") + rest;
    var s := Join(RenderIds([n] + ids), ",") + rest;
    assert ParseNat(s) == Some((n, tail)) by {
      RenderIdsHead([n] + ids);
      assert ([n] + ids)[1..] == ids;
      JoinHead(RenderIds([n] + ids), rest);
      AfterId(RenderIds(ids), rest);
      ParseNatRender(n, tail);
    }
    IdsStep(s, n, tail, ids, rest);
  }

  /** The text after the CASE clauses, as `RenderBatch` writes it. */
  function WhereText(chain: string, ids: seq<nat>): string {
    WhereTok + (chain + (InTok + (Join(RenderIds(ids), ",") + ")")))
  }

  lemma {:induction false} WhereRoundTrip(table: string, clauses: seq<CaseClause>, chain: string, ids: seq<nat>)
    requires '\'' !in chain
    ensures ParseWhere(table, clauses, WhereText(chain, ids)) == Some(BatchUpdate(table, chain, clauses, ids))
  {
    var idsText := Join(RenderIds(ids), ",") + ")";
    var x2 := InTok + idsText;
    var x1 := chain + x2;
    StartsWithAppend(WhereTok, x1);
    TakeUntilOf(chain, x2, '\'');
    StartsWithAppend(InTok, idsText);
    IdsRoundTrip(ids, ")");
  }

  lemma {:induction false} BatchStep(sql: string, table: string, r1: string, clauses: seq<CaseClause>, r2: string)
    requires StartsWith(sql, "UPDATE ") && TakeUntil(sql[7..], ' ') == (table, r1)
    requires StartsWith(r1, " SET ") && ParseClauses(r1[5..]) == Some((clauses, r2))
    ensures ParseBatch(sql) == ParseWhere(table, clauses, r2)
  {
  }

  lemma {:induction false} HeadRoundTrip(table: string, clauses: string, rest: string)
    requires ' ' !in table
    ensures var x1 := " SET " + (clauses + rest);
      var sql := "UPDATE " + (table + x1);
      && StartsWith(sql, "UPDATE ") && TakeUntil(sql[7..], ' ') == (table, x1)
      && StartsWith(x1, " SET ") && x1[5..] == clauses + rest
  {
    var x1 := " SET " + (clauses + rest);
    StartsWithAppend("UPDATE ", table + x1);
    TakeUntilOf(table, x1, ' ');
    StartsWithAppend(" SET ", clauses + rest);
  }

  /** Under `Readable`, the rendered text parses back to the same statement. */
  lemma {:induction false} RenderBatchParses(b: BatchUpdate)
    requires Readable(b)
    ensures ParseBatch(RenderBatch(b)) == Some(b)
  {
    var x2 := WhereText(b.chain, b.ids);
    var clauses := Join(RenderClauses(b.clauses), ",");
    var x1 := " SET " + (clauses + x2);
    var sql := "UPDATE " + (b.table + x1);
    HeadRoundTrip(b.table, clauses, x2);
    assert ParseClauses(clauses + x2) == Some((b.clauses, x2)) by {
      StartsWithAppend(WhereTok, x2[|WhereTok|..]);
      ClausesRoundTrip(b.clauses, x2);
    }
    BatchStep(sql, b.table, x1, b.clauses, x2);
    WhereRoundTrip(b.table, b.clauses, b.chain, b.ids);
  }
}
