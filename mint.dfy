/**
 * `UpdateInscriptStatsForMint` (storage/common.go): a SET list over up to six
 * statistics columns, each present only when its value is positive, bound
 * by `?` placeholders to a parallel argument list, followed by
 * `chain, protocol, tick` for the WHERE clause. Nothing is sent when no
 * column qualifies.
 */
module Mint {
  import opened Wrappers
  import opened Text
  import opened Sql
  import opened Db
  import opened Model

  /** The condition under which the source includes a column. */
  predicate Guard(stats: InscriptionStats, c: StatsColumn) {
    match c
    case Minted => stats.minted > 0
    case MintCompletedTime => stats.mintCompletedTime.Some? && stats.mintCompletedTime.value > 0
    case MintFirstBlock => stats.mintFirstBlock > 0
    case MintLastBlock => stats.mintLastBlock > 0
    case Holders => stats.holders > 0
    case TxCnt => stats.txCnt > 0
  }

  /** The argument bound to a column's placeholder. */
  function ArgFor(stats: InscriptionStats, c: StatsColumn): Arg {
    match c
    case Minted => IntArg(stats.minted)
    case MintCompletedTime => TimeArg(if stats.mintCompletedTime.Some? then stats.mintCompletedTime.value else 0)
    case MintFirstBlock => IntArg(stats.mintFirstBlock)
    case MintLastBlock => IntArg(stats.mintLastBlock)
    case Holders => IntArg(stats.holders)
    case TxCnt => IntArg(stats.txCnt)
  }

  /** Position of a column in the order the source tests them. */
  function Rank(c: StatsColumn): nat {
    match c
    case Minted => 0
    case MintCompletedTime => 1
    case MintFirstBlock => 2
    case MintLastBlock => 3
    case Holders => 4
    case TxCnt => 5
  }

  function Opt(stats: InscriptionStats, c: StatsColumn): seq<(StatsColumn, Arg)> {
    if Guard(stats, c) then [(c, ArgFor(stats, c))] else []
  }

  /** The assignments the source makes, in its fixed column order. */
  function MintSets(stats: InscriptionStats): seq<(StatsColumn, Arg)> {
    Opt(stats, Minted) + Opt(stats, MintCompletedTime) + Opt(stats, MintFirstBlock)
      + Opt(stats, MintLastBlock) + Opt(stats, Holders) + Opt(stats, TxCnt)
  }

  /** MintSets as the six guarded pieces, one after the other. */
  lemma MintSetsSteps(stats: InscriptionStats, s1: seq<(StatsColumn, Arg)>, s2: seq<(StatsColumn, Arg)>,
                      s3: seq<(StatsColumn, Arg)>, s4: seq<(StatsColumn, Arg)>, s5: seq<(StatsColumn, Arg)>)
    requires s1 == Opt(stats, Minted) && s2 == s1 + Opt(stats, MintCompletedTime)
    requires s3 == s2 + Opt(stats, MintFirstBlock) && s4 == s3 + Opt(stats, MintLastBlock)
    requires s5 == s4 + Opt(stats, Holders)
    ensures MintSets(stats) == s5 + Opt(stats, TxCnt)
  {
  }

  function MintStatement(stats: InscriptionStats): MintUpdate {
    MintUpdate(InscriptionStatsTable, MintSets(stats), stats.chain, stats.protocol, stats.tick)
  }

  /** The text the source appends for a column before trimming: a leading comma except for `minted`. */
  function Fragment(c: StatsColumn): string {
    if c == Minted then SetPiece(c) else "," + SetPiece(c)
  }

  function RawSetList(sets: seq<(StatsColumn, Arg)>): string {
    if |sets| == 0 then "" else Fragment(sets[0].0) + RawSetList(sets[1..])
  }

  // ---------------------------------------------------------------------
  // Step lemmas for the accumulation
  // ---------------------------------------------------------------------

  lemma {:induction false} RawSetListSnoc(sets: seq<(StatsColumn, Arg)>, x: (StatsColumn, Arg))
    ensures RawSetList(sets + [x]) == RawSetList(sets) + Fragment(x.0)
  {
    if |sets| == 0 {
      assert sets + [x] == [x];
    } else {
      RawSetListSnoc(sets[1..], x);
      RawConsSnoc(sets[0], sets[1..], x);
      assert [sets[0]] + sets[1..] == sets;
    }
  }

  lemma RawConsSnoc(h: (StatsColumn, Arg), tail: seq<(StatsColumn, Arg)>, x: (StatsColumn, Arg))
    requires RawSetList(tail + [x]) == RawSetList(tail) + Fragment(x.0)
    ensures RawSetList([h] + tail + [x]) == RawSetList([h] + tail) + Fragment(x.0)
  {
    assert [h] + tail + [x] == [h] + (tail + [x]);
    RawCons(h, tail + [x]);
    RawCons(h, tail);
    StringAssoc(Fragment(h.0), RawSetList(tail), Fragment(x.0));
  }

  lemma RawCons(h: (StatsColumn, Arg), sets: seq<(StatsColumn, Arg)>)
    ensures RawSetList([h] + sets) == Fragment(h.0) + RawSetList(sets)
  {
    assert ([h] + sets)[0] == h && ([h] + sets)[1..] == sets;
  }

  lemma StringAssoc(a: string, b: string, c: string)
    ensures a + (b + c) == (a + b) + c
  {
  }

  lemma {:induction false} SetArgsSnoc(sets: seq<(StatsColumn, Arg)>, x: (StatsColumn, Arg))
    ensures SetArgs(sets + [x]) == SetArgs(sets) + [x.1]
  {
    if |sets| == 0 {
      assert sets + [x] == [x];
    } else {
      assert (sets + [x])[1..] == sets[1..] + [x];
      SetArgsSnoc(sets[1..], x);
    }
  }

  /** One guarded append, on the text and on the argument list. */
  lemma GuardedStep(stats: InscriptionStats, c: StatsColumn, sets: seq<(StatsColumn, Arg)>, sql: string, data: seq<Arg>)
    requires sql == RawSetList(sets) && data == SetArgs(sets)
    ensures Guard(stats, c) ==>
      sql + Fragment(c) == RawSetList(sets + Opt(stats, c)) && data + [ArgFor(stats, c)] == SetArgs(sets + Opt(stats, c))
    ensures !Guard(stats, c) ==> sql == RawSetList(sets + Opt(stats, c)) && data == SetArgs(sets + Opt(stats, c))
  {
    if Guard(stats, c) {
      RawSetListSnoc(sets, (c, ArgFor(stats, c)));
      SetArgsSnoc(sets, (c, ArgFor(stats, c)));
    } else {
      assert sets + Opt(stats, c) == sets;
    }
  }

  /** The literal text the source appends for each column. */
  lemma FragmentTexts()
    ensures Fragment(Minted) == " minted= ? "
    ensures Fragment(MintCompletedTime) == ", mint_completed_time=? "
    ensures Fragment(MintFirstBlock) == ", mint_first_block=? "
    ensures Fragment(MintLastBlock) == ", mint_last_block=? "
    ensures Fragment(Holders) == ", holders=? "
    ensures Fragment(TxCnt) == ", tx_cnt=? "
  {
    MintCompletedTimeFragment();
    MintFirstBlockFragment();
    MintLastBlockFragment();
    HoldersFragment();
    TxCntFragment();
  }

  lemma MintCompletedTimeFragment()
    ensures Fragment(MintCompletedTime) == ", mint_completed_time=? "
  {
    assert ColumnName(MintCompletedTime) == "mint_completed_time";
  }

  lemma MintFirstBlockFragment()
    ensures Fragment(MintFirstBlock) == ", mint_first_block=? "
  {
    assert ColumnName(MintFirstBlock) == "mint_first_block";
  }

  lemma MintLastBlockFragment()
    ensures Fragment(MintLastBlock) == ", mint_last_block=? "
  {
    assert ColumnName(MintLastBlock) == "mint_last_block";
  }

  lemma HoldersFragment()
    ensures Fragment(Holders) == ", holders=? "
  {
    assert ColumnName(Holders) == "holders";
  }

  lemma TxCntFragment()
    ensures Fragment(TxCnt) == ", tx_cnt=? "
  {
    assert ColumnName(TxCnt) == "tx_cnt";
  }

  // ---------------------------------------------------------------------
  // Trimming the leading comma
  // ---------------------------------------------------------------------

  predicate Ordered(sets: seq<(StatsColumn, Arg)>) {
    forall i, j :: 0 <= i < j < |sets| ==> Rank(sets[i].0) < Rank(sets[j].0)
  }

  lemma {:induction false} RawWithoutMinted(sets: seq<(StatsColumn, Arg)>)
    requires forall i :: 0 <= i < |sets| ==> sets[i].0 != Minted
    ensures RawSetList(sets) == Prefixed(SetPieces(sets), ",")
  {
    if |sets| > 0 {
      RawWithoutMinted(sets[1..]);
    }
  }

  lemma SetPieceSpaced(c: StatsColumn)
    ensures |SetPiece(c)| > 0 && SetPiece(c)[0] == ' ' && SetPiece(c)[|SetPiece(c)| - 1] == ' '
  {
  }

  /** Every SET piece begins and ends with a space, so their join does too. */
  lemma PiecesEndInSpace(sets: seq<(StatsColumn, Arg)>)
    requires |sets| > 0
    ensures var j := Join(SetPieces(sets), ",");
      |j| > 0 && j[0] == ' ' && j[|j| - 1] == ' '
  {
    var ps := SetPieces(sets);
    SetPiecesShape(sets);
    SetPieceSpaced(sets[0].0);
    forall i | 0 <= i < |ps| ensures |ps[i]| > 0 && ps[i][|ps[i]| - 1] == ' ' {
      SetPieceSpaced(sets[i].0);
    }
    PrefixedEnd(ps[1..]);
  }

  lemma {:induction false} PrefixedEnd(ps: seq<string>)
    requires forall i :: 0 <= i < |ps| ==> |ps[i]| > 0 && ps[i][|ps[i]| - 1] == ' '
    ensures var s := Prefixed(ps, ",");
      |ps| > 0 ==> |s| > 0 && s[|s| - 1] == ' '
  {
    if |ps| > 1 {
      PrefixedEnd(ps[1..]);
    }
  }

  lemma {:induction false} SetPiecesShape(sets: seq<(StatsColumn, Arg)>)
    ensures forall i :: 0 <= i < |sets| ==> SetPieces(sets)[i] == SetPiece(sets[i].0)
  {
    if |sets| > 0 {
      SetPiecesShape(sets[1..]);
    }
  }

  /**
   * `strings.Trim(updateSql, ",")` leaves exactly the comma-joined pieces:
   * only an unset `minted` leaves a leading comma, and it is the one removed.
   */
  lemma TrimmedSetList(sets: seq<(StatsColumn, Arg)>)
    requires Ordered(sets)
    ensures Trim(RawSetList(sets), ',') == Join(SetPieces(sets), ",")
  {
    if |sets| > 0 {
      TailNotMinted(sets);
      RawIsJoin(sets);
      PiecesEndInSpace(sets);
      var j := Join(SetPieces(sets), ",");
      if sets[0].0 == Minted {
        TrimUntouched(j, ',');
      } else {
        TrimOneLeading(j, ',');
      }
    }
  }

  /** In an ordered list only the first entry can be `minted`. */
  lemma TailNotMinted(sets: seq<(StatsColumn, Arg)>)
    requires Ordered(sets) && |sets| > 0
    ensures forall i :: 1 <= i < |sets| ==> sets[i].0 != Minted
  {
    forall i | 1 <= i < |sets| ensures sets[i].0 != Minted {
      assert Rank(sets[0].0) < Rank(sets[i].0);
    }
  }

  /** Before trimming, the text is the joined pieces, with a comma in front unless the first is `minted`. */
  lemma RawIsJoin(sets: seq<(StatsColumn, Arg)>)
    requires |sets| > 0 && forall i :: 1 <= i < |sets| ==> sets[i].0 != Minted
    ensures RawSetList(sets) == (if sets[0].0 == Minted then "" else [',']) + Join(SetPieces(sets), ",")
  {
    var tail := sets[1..];
    TailOfUnminted(sets);
    RawWithoutMinted(tail);
    JoinOfPieces(sets);
    CommaGlue(Fragment(sets[0].0), SetPiece(sets[0].0), sets[0].0 == Minted, Prefixed(SetPieces(tail), ","));
  }

  lemma TailOfUnminted(sets: seq<(StatsColumn, Arg)>)
    requires |sets| > 0 && forall i :: 1 <= i < |sets| ==> sets[i].0 != Minted
    ensures forall i :: 0 <= i < |sets[1..]| ==> sets[1..][i].0 != Minted
  {
    forall i | 0 <= i < |sets[1..]| ensures sets[1..][i].0 != Minted {
      assert sets[1..][i] == sets[i + 1];
    }
  }

  lemma JoinOfPieces(sets: seq<(StatsColumn, Arg)>)
    requires |sets| > 0
    ensures Join(SetPieces(sets), ",") == SetPiece(sets[0].0) + Prefixed(SetPieces(sets[1..]), ",")
    ensures RawSetList(sets) == Fragment(sets[0].0) + RawSetList(sets[1..])
    ensures Fragment(sets[0].0) == (if sets[0].0 == Minted then "" else [',']) + SetPiece(sets[0].0)
  {
    assert SetPieces(sets)[0] == SetPiece(sets[0].0) && SetPieces(sets)[1..] == SetPieces(sets[1..]);
  }

  lemma CommaGlue(f: string, p: string, minted: bool, rest: string)
    requires f == (if minted then "" else [',']) + p
    ensures f + rest == (if minted then "" else [',']) + (p + rest)
  {
  }

  predicate RanksBelow(sets: seq<(StatsColumn, Arg)>, r: nat) {
    forall i :: 0 <= i < |sets| ==> Rank(sets[i].0) < r
  }

  lemma OrderedStep(stats: InscriptionStats, sets: seq<(StatsColumn, Arg)>, c: StatsColumn)
    requires Ordered(sets) && RanksBelow(sets, Rank(c))
    ensures Ordered(sets + Opt(stats, c)) && RanksBelow(sets + Opt(stats, c), Rank(c) + 1)
  {
    var o := Opt(stats, c);
    assert |o| <= 1 && forall j :: 0 <= j < |o| ==> o[j].0 == c;
  }

  /** The included columns keep the order minted, mint_completed_time, ..., tx_cnt. */
  lemma MintSetsOrdered(stats: InscriptionStats)
    ensures Ordered(MintSets(stats))
  {
    var s0: seq<(StatsColumn, Arg)> := [];
    OrderedStep(stats, s0, Minted);
    var s1 := s0 + Opt(stats, Minted);
    OrderedStep(stats, s1, MintCompletedTime);
    var s2 := s1 + Opt(stats, MintCompletedTime);
    OrderedStep(stats, s2, MintFirstBlock);
    var s3 := s2 + Opt(stats, MintFirstBlock);
    OrderedStep(stats, s3, MintLastBlock);
    var s4 := s3 + Opt(stats, MintLastBlock);
    OrderedStep(stats, s4, Holders);
    var s5 := s4 + Opt(stats, Holders);
    OrderedStep(stats, s5, TxCnt);
    assert s1 == Opt(stats, Minted);
    MintSetsSteps(stats, s1, s2, s3, s4, s5);
  }

  // ---------------------------------------------------------------------
  // The operation
  // ---------------------------------------------------------------------

  /** Lines 230-262: the SET list and its arguments, built by six guarded appends and a trim. */
  method BuildMintSetList(stats: InscriptionStats) returns (setList: string, data: seq<Arg>)
    ensures setList == Join(SetPieces(MintSets(stats)), ",")
    ensures data == SetArgs(MintSets(stats))
  {
    FragmentTexts();
    var updateSql := "";
    var updateData: seq<Arg> := [];
    ghost var s0: seq<(StatsColumn, Arg)> := [];
    GuardedStep(stats, Minted, s0, updateSql, updateData);
    if stats.minted > 0 {
      updateSql := updateSql + " minted= ? ";
      updateData := updateData + [IntArg(stats.minted)];
    }
    ghost var s1 := s0 + Opt(stats, Minted);
    GuardedStep(stats, MintCompletedTime, s1, updateSql, updateData);
    if stats.mintCompletedTime.Some? && stats.mintCompletedTime.value > 0 {
      updateSql := updateSql + ", mint_completed_time=? ";
      updateData := updateData + [TimeArg(stats.mintCompletedTime.value)];
    }
    ghost var s2 := s1 + Opt(stats, MintCompletedTime);
    GuardedStep(stats, MintFirstBlock, s2, updateSql, updateData);
    if stats.mintFirstBlock > 0 {
      updateSql := updateSql + ", mint_first_block=? ";
      updateData := updateData + [IntArg(stats.mintFirstBlock)];
    }
    ghost var s3 := s2 + Opt(stats, MintFirstBlock);
    GuardedStep(stats, MintLastBlock, s3, updateSql, updateData);
    if stats.mintLastBlock > 0 {
      updateSql := updateSql + ", mint_last_block=? ";
      updateData := updateData + [IntArg(stats.mintLastBlock)];
    }
    ghost var s4 := s3 + Opt(stats, MintLastBlock);
    GuardedStep(stats, Holders, s4, updateSql, updateData);
    if stats.holders > 0 {
      updateSql := updateSql + ", holders=? ";
      updateData := updateData + [IntArg(stats.holders)];
    }
    ghost var s5 := s4 + Opt(stats, Holders);
    GuardedStep(stats, TxCnt, s5, updateSql, updateData);
    if stats.txCnt > 0 {
      updateSql := updateSql + ", tx_cnt=? ";
      updateData := updateData + [IntArg(stats.txCnt)];
    }
    ghost var s6 := s5 + Opt(stats, TxCnt);
    assert s1 == Opt(stats, Minted);
    MintSetsSteps(stats, s1, s2, s3, s4, s5);
    MintSetsOrdered(stats);
    TrimmedSetList(s6);
    setList := Trim(updateSql, ',');
    data := updateData;
  }

  /**
   * `UpdateInscriptStatsForMint` (lines 227-273): when some column qualifies,
   * one bound statement whose backend error is returned as it came; when
   * none does, nothing is sent and nil is returned.
   */
  method UpdateInscriptStatsForMint(tx: Tx, stats: InscriptionStats, outcome: Outcome) returns (err: Option<Error>)
    modifies tx
    ensures |MintSets(stats)| == 0 ==> err == None && tx.log == old(tx.log) && tx.db == old(tx.db)
    ensures |MintSets(stats)| > 0 ==>
      var s := Bound(MintStatement(stats));
      && err == ErrorOf(outcome)
      && tx.log == old(tx.log) + [Submission(s)]
      && tx.db == (if outcome.Done? then Apply(s, old(tx.db)) else old(tx.db))
  {
    var tableName := InscriptionStatsTable;
    var updateSql, updateData := BuildMintSetList(stats);
    if |MintSets(stats)| > 0 {
      PiecesEndInSpace(MintSets(stats));
    }
    if |updateSql| > 0 && |updateData| > 0 {
      updateSql := "UPDATE " + tableName + " SET " + updateSql + "WHERE chain=? ANd protocol=? AND tick=?";
      updateData := updateData + [TextArg(stats.chain), TextArg(stats.protocol), TextArg(stats.tick)];
      var s := Bound(MintStatement(stats));
      assert Submission(s) == Submitted(updateSql, updateData);
      var ret := tx.Exec(s, outcome);
      if ret.Failed? {
        return Some(ret.error);
      }
    }
    return None;
  }
}

/**
 * What the mint-statistics update promises: a column is set exactly when its
 * guard holds, with its own value; the placeholders match the arguments; and
 * on the matching rows only the qualifying columns change.
 */
module MintProps {
  import opened Text
  import opened Sql
  import opened Model
  import opened Mint

  lemma OptFacts(stats: InscriptionStats, c: StatsColumn)
    ensures |Opt(stats, c)| == (if Guard(stats, c) then 1 else 0)
    ensures forall i :: 0 <= i < |Opt(stats, c)| ==> Opt(stats, c)[i] == (c, ArgFor(stats, c))
  {
  }

  /** A column appears in the SET list if and only if its guard holds, and then with its value. */
  lemma MintInclusion(stats: InscriptionStats, c: StatsColumn)
    ensures var sets := MintSets(stats);
      && (Guard(stats, c) <==> exists i :: 0 <= i < |sets| && sets[i].0 == c)
      && (forall i :: 0 <= i < |sets| ==> Guard(stats, sets[i].0) && sets[i].1 == ArgFor(stats, sets[i].0))
  {
    MintSetsGuarded(stats);
    if Guard(stats, c) {
      MintSetsHave(stats, c);
    }
  }

  /** Every entry of the SET list is a column whose guard holds, with that column's value. */
  lemma MintSetsGuarded(stats: InscriptionStats)
    ensures var sets := MintSets(stats);
      forall i :: 0 <= i < |sets| ==> Guard(stats, sets[i].0) && sets[i].1 == ArgFor(stats, sets[i].0)
  {
    var o1, o2, o3 := Opt(stats, Minted), Opt(stats, MintCompletedTime), Opt(stats, MintFirstBlock);
    var o4, o5, o6 := Opt(stats, MintLastBlock), Opt(stats, Holders), Opt(stats, TxCnt);
    OptFacts(stats, Minted);
    OptFacts(stats, MintCompletedTime);
    OptFacts(stats, MintFirstBlock);
    OptFacts(stats, MintLastBlock);
    OptFacts(stats, Holders);
    OptFacts(stats, TxCnt);
    var sets := MintSets(stats);
    assert sets == o1 + o2 + o3 + o4 + o5 + o6;
    forall i | 0 <= i < |sets|
      ensures Guard(stats, sets[i].0) && sets[i].1 == ArgFor(stats, sets[i].0)
    {
      MemberOfConcat(o1, o2, o3, o4, o5, o6, i);
    }
  }

  /** A column whose guard holds is in the SET list. */
  lemma MintSetsHave(stats: InscriptionStats, c: StatsColumn)
    requires Guard(stats, c)
    ensures var sets := MintSets(stats);
      exists i :: 0 <= i < |sets| && sets[i].0 == c
  {
    var o1, o2, o3 := Opt(stats, Minted), Opt(stats, MintCompletedTime), Opt(stats, MintFirstBlock);
    var o4, o5, o6 := Opt(stats, MintLastBlock), Opt(stats, Holders), Opt(stats, TxCnt);
    OptFacts(stats, c);
    var sets := MintSets(stats);
    assert sets == o1 + o2 + o3 + o4 + o5 + o6;
    match c
    case Minted => assert sets[0] == (c, ArgFor(stats, c));
    case MintCompletedTime => assert sets[|o1|] == (c, ArgFor(stats, c));
    case MintFirstBlock => assert sets[|o1 + o2|] == (c, ArgFor(stats, c));
    case MintLastBlock => assert sets[|o1 + o2 + o3|] == (c, ArgFor(stats, c));
    case Holders => assert sets[|o1 + o2 + o3 + o4|] == (c, ArgFor(stats, c));
    case TxCnt => assert sets[|o1 + o2 + o3 + o4 + o5|] == (c, ArgFor(stats, c));
  }

  lemma MemberOfConcat(o1: seq<(StatsColumn, Arg)>, o2: seq<(StatsColumn, Arg)>, o3: seq<(StatsColumn, Arg)>,
                       o4: seq<(StatsColumn, Arg)>, o5: seq<(StatsColumn, Arg)>, o6: seq<(StatsColumn, Arg)>, i: nat)
    requires i < |o1 + o2 + o3 + o4 + o5 + o6|
    ensures var s := o1 + o2 + o3 + o4 + o5 + o6;
      s[i] in o1 || s[i] in o2 || s[i] in o3 || s[i] in o4 || s[i] in o5 || s[i] in o6
  {
  }

  lemma SetPieceCount(c: StatsColumn)
    ensures Count(SetPiece(c), '?') == 1
  {
    var lhs := if c == Minted then " minted= " else " " + ColumnName(c) + "=";
    assert SetPiece(c) == lhs + ("?" + " ");
    NoMarkBefore(c);
    CountAbsent(lhs, '?');
    OneMark(lhs, " ", '?');
  }

  /** The text in front of the `?` of a SET piece holds no `?`. */
  lemma NoMarkBefore(c: StatsColumn)
    ensures '?' !in (if c == Minted then " minted= " else " " + ColumnName(c) + "=")
  {
    match c
    case Minted =>
    case MintCompletedTime => assert ColumnName(c) == "mint_completed_time";
    case MintFirstBlock => assert ColumnName(c) == "mint_first_block";
    case MintLastBlock => assert ColumnName(c) == "mint_last_block";
    case Holders => assert ColumnName(c) == "holders";
    case TxCnt => assert ColumnName(c) == "tx_cnt";
  }

  lemma OneMark(a: string, b: string, q: char)
    requires Count(a, q) == 0 && q !in b
    ensures Count(a + ([q] + b), q) == 1
  {
    CountAbsent(b, q);
    CountAppend(a, [q] + b, q);
    CountAppend([q], b, q);
    assert Count([q], q) == 1;
  }

  lemma {:induction false} CountPieces(sets: seq<(StatsColumn, Arg)>)
    ensures Count(Prefixed(SetPieces(sets), ","), '?') == |sets|
  {
    if |sets| > 0 {
      var ps := SetPieces(sets);
      assert ps[1..] == SetPieces(sets[1..]);
      CountPieces(sets[1..]);
      SetPieceCount(sets[0].0);
      CountAppend("," + ps[0], Prefixed(ps[1..], ","), '?');
      CountAppend(",", ps[0], '?');
    }
  }

  /** One `?` per SET piece in the joined list. */
  lemma JoinCount(sets: seq<(StatsColumn, Arg)>)
    ensures Count(Join(SetPieces(sets), ","), '?') == |sets|
  {
    if |sets| > 0 {
      var ps := SetPieces(sets);
      assert ps[0] == SetPiece(sets[0].0) && ps[1..] == SetPieces(sets[1..]);
      CountPieces(sets[1..]);
      SetPieceCount(sets[0].0);
      CountAppend(ps[0], Prefixed(ps[1..], ","), '?');
    }
  }

  lemma ThreeMarks(a: string, b: string, c: string, q: char)
    requires q !in a && q !in b && q !in c
    ensures Count(a + ([q] + (b + ([q] + (c + [q])))), q) == 3
  {
    CountAbsent(a, q);
    CountAbsent(b, q);
    CountAbsent(c, q);
    assert Count([q], q) == 1;
    CountAppend(c, [q], q);
    CountAppend([q], c + [q], q);
    CountAppend(b, [q] + (c + [q]), q);
    CountAppend([q], b + ([q] + (c + [q])), q);
    CountAppend(a, [q] + (b + ([q] + (c + [q]))), q);
  }

  lemma WhereSplit()
    ensures MintWhere == "WHERE chain=" + (['?'] + (" ANd protocol=" + (['?'] + (" AND tick=" + ['?']))))
  {
  }

  lemma WhereUnmarked()
    ensures '?' !in "WHERE chain=" && '?' !in " ANd protocol=" && '?' !in " AND tick="
  {
  }

  lemma WhereCount()
    ensures Count(MintWhere, '?') == 3
  {
    WhereSplit();
    WhereUnmarked();
    ThreeMarks("WHERE chain=", " ANd protocol=", " AND tick=", '?');
  }

  lemma KeywordCounts()
    ensures Count("UPDATE ", '?') == 0 && Count(" SET ", '?') == 0
  {
    CountAbsent("UPDATE ", '?');
    CountAbsent(" SET ", '?');
  }

  /** The `?` of an UPDATE text are those of its table name, SET list and WHERE part. */
  lemma UpdateCount(table: string, sets: string, where: string)
    ensures Count("UPDATE " + table + " SET " + sets + where, '?')
         == Count(table, '?') + Count(sets, '?') + Count(where, '?')
  {
    CountAppend("UPDATE " + table + " SET " + sets, where, '?');
    CountAppend("UPDATE " + table + " SET ", sets, '?');
    CountAppend("UPDATE " + table, " SET ", '?');
    CountAppend("UPDATE ", table, '?');
    KeywordCounts();
  }

  /** The number of `?` in the statement equals the number of bound arguments. */
  lemma MintPlaceholders(m: MintUpdate)
    requires Count(m.table, '?') == 0
    ensures Count(RenderMint(m), '?') == |MintArgs(m)|
  {
    JoinCount(m.sets);
    WhereCount();
    UpdateCount(m.table, Join(SetPieces(m.sets), ","), MintWhere);
  }

  /** No column is set, and nothing is sent, exactly when no guard holds. */
  lemma NothingQualifies(stats: InscriptionStats)
    ensures |MintSets(stats)| == 0 <==> forall c :: !Guard(stats, c)
  {
    if |MintSets(stats)| > 0 {
      MintInclusion(stats, MintSets(stats)[0].0);
    } else {
      forall c ensures !Guard(stats, c) {
        MintInclusion(stats, c);
      }
    }
  }

  lemma ColumnNameInjective(a: StatsColumn, b: StatsColumn)
    ensures ColumnName(a) == ColumnName(b) ==> a == b
  {
    if a != b {
      assert |ColumnName(a)| != |ColumnName(b)| || ColumnName(a)[0] != ColumnName(b)[0];
    }
  }

  lemma {:induction false} AssignOther(sets: seq<(StatsColumn, Arg)>, row: Row, name: string)
    requires forall j :: 0 <= j < |sets| ==> ColumnName(sets[j].0) != name
    ensures (name in Assign(sets, row) <==> name in row)
    ensures name in row ==> Assign(sets, row)[name] == row[name]
  {
    if |sets| > 0 {
      AssignOther(sets[1..], row[ColumnName(sets[0].0) := ArgCell(sets[0].1)], name);
    }
  }

  lemma {:induction false} AssignAt(sets: seq<(StatsColumn, Arg)>, row: Row, i: nat)
    requires i < |sets|
    requires forall j :: 0 <= j < |sets| && j != i ==> ColumnName(sets[j].0) != ColumnName(sets[i].0)
    ensures ColumnName(sets[i].0) in Assign(sets, row)
    ensures Assign(sets, row)[ColumnName(sets[i].0)] == ArgCell(sets[i].1)
  {
    var row' := row[ColumnName(sets[0].0) := ArgCell(sets[0].1)];
    if i == 0 {
      AssignOther(sets[1..], row', ColumnName(sets[0].0));
    } else {
      AssignAt(sets[1..], row', i - 1);
    }
  }

  /**
   * On a row of the given chain, protocol and tick, each statistics column
   * takes its new value when its guard holds and keeps its old one otherwise.
   */
  lemma MintUpdateEffect(stats: InscriptionStats, t: Table, k: RowKey, c: StatsColumn)
    requires k in t && MintSelects(MintStatement(stats), k, t[k])
    ensures var row := ApplyMint(MintStatement(stats), t)[k];
      var name := ColumnName(c);
      && (Guard(stats, c) ==> name in row && row[name] == ArgCell(ArgFor(stats, c)))
      && (!Guard(stats, c) ==> (name in row <==> name in t[k]) && (name in t[k] ==> row[name] == t[k][name]))
  {
    var sets := MintSets(stats);
    MintInclusion(stats, c);
    MintSetsOrdered(stats);
    if Guard(stats, c) {
      var i :| 0 <= i < |sets| && sets[i].0 == c;
      forall j | 0 <= j < |sets| && j != i
        ensures ColumnName(sets[j].0) != ColumnName(sets[i].0)
      {
        ColumnNameInjective(sets[j].0, sets[i].0);
        assert Rank(sets[j].0) != Rank(sets[i].0);
      }
      AssignAt(sets, t[k], i);
    } else {
      forall j | 0 <= j < |sets|
        ensures ColumnName(sets[j].0) != ColumnName(c)
      {
        ColumnNameInjective(sets[j].0, c);
      }
      AssignOther(sets, t[k], ColumnName(c));
    }
  }

  /** Rows of another chain, protocol or tick, and columns outside the six, are untouched. */
  lemma MintFrame(stats: InscriptionStats, t: Table, k: RowKey, name: string)
    requires k in t
    requires forall c :: ColumnName(c) != name
    ensures var t' := ApplyMint(MintStatement(stats), t);
      && k in t'
      && (!MintSelects(MintStatement(stats), k, t[k]) ==> t'[k] == t[k])
      && (name in t'[k] <==> name in t[k])
      && (name in t[k] ==> t'[k][name] == t[k][name])
  {
    AssignOther(MintSets(stats), t[k], name);
  }

  /**
   * The statement sent for a stats record: as many `?` as arguments, the
   * column values first and `chain, protocol, tick` last.
   */
  lemma MintStatementPlaceholders(stats: InscriptionStats)
    ensures var m := MintStatement(stats);
      var args := MintArgs(m);
      && Count(RenderMint(m), '?') == |args|
      && |args| == |MintSets(stats)| + 3
      && args[..|MintSets(stats)|] == SetArgs(MintSets(stats))
      && args[|MintSets(stats)|..] == [TextArg(stats.chain), TextArg(stats.protocol), TextArg(stats.tick)]
  {
    CountAbsent(InscriptionStatsTable, '?');
    MintPlaceholders(MintStatement(stats));
  }
}
