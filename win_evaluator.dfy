/**
 * Payline win evaluation (`check_win`): the first non-wild position, the run
 * of wild-or-matching symbols that follows it, the price of that run, and the
 * competing price of the leading wild block alone.
 */
module WinEvaluator {
  import opened Wrappers
  import opened WildDetector
  import opened ResultCodec

  /** Payout by match length, then by symbol id. */
  type PayTable = map<int, map<int, real>>

  /** The payout for `length` copies of `symbol`; an absent entry pays 0. */
  function Lookup(payTable: PayTable, length: int, symbol: int): (amount: real)
    ensures length in payTable && symbol in payTable[length] ==> amount == payTable[length][symbol]
    ensures length !in payTable || symbol !in payTable[length] ==> amount == 0.0
  {
    if length in payTable && symbol in payTable[length] then payTable[length][symbol] else 0.0
  }

  /** The combination finally reported for a line. */
  datatype Choice = Choice(length: int, flag: int, symbol: int, amount: real)

  /** The first position at or after `from` whose mask entry is false, or `|wilds|`. */
  function FirstNonWild(wilds: seq<bool>, from: nat): (p: nat)
    requires from <= |wilds|
    ensures from <= p <= |wilds|
    ensures forall j :: from <= j < p ==> wilds[j]
    ensures p < |wilds| ==> !wilds[p]
    decreases |wilds| - from
  {
    if from < |wilds| && wilds[from] then FirstNonWild(wilds, from + 1) else from
  }

  /** Position `i` continues a run anchored on `anchor`: it is wild or equal to it. */
  predicate Continues(line: seq<int>, wilds: seq<bool>, anchor: int, i: nat)
    requires |wilds| == |line| && i < |line|
  {
    wilds[i] || line[i] == anchor
  }

  /** The end (exclusive) of the run of continuing positions that starts at `from`. */
  function RunEnd(line: seq<int>, wilds: seq<bool>, anchor: int, from: nat): (e: nat)
    requires |wilds| == |line| && from <= |line|
    ensures from <= e <= |line|
    ensures forall j :: from <= j < e ==> Continues(line, wilds, anchor, j)
    ensures e < |line| ==> !Continues(line, wilds, anchor, e)
    decreases |line| - from
  {
    if from < |line| && Continues(line, wilds, anchor, from) then RunEnd(line, wilds, anchor, from + 1) else from
  }

  /** The candidate built from the run anchored on the first non-wild symbol `line[p]`. */
  function MainCandidate(line: seq<int>, wilds: seq<bool>, wildIds: seq<int>, payTable: PayTable, p: nat): (c: Choice)
    requires |wilds| == |line| && p < |line|
    ensures p < c.length <= |line| && IsMaximalRun(line, wilds, p, c.length)
    ensures c.symbol == line[p] && c.amount == Lookup(payTable, c.length, c.symbol)
    ensures c.flag == 0 || c.flag == 1
    ensures c.flag == 1 <==> exists j :: 0 <= j < c.length && line[j] in wildIds
  {
    var end := RunEnd(line, wilds, line[p], p + 1);
    RunEndIsMaximal(line, wilds, p);
    Choice(end, CheckWildPresence(line[..end], wildIds), line[p], Lookup(payTable, end, line[p]))
  }

  /** The candidate that prices the `p` leading wilds alone, as `p` copies of `line[0]`. */
  function AltCandidate(line: seq<int>, wildIds: seq<int>, payTable: PayTable, p: nat): (c: Choice)
    requires 0 < |line| && p <= |line|
    ensures c.length == p && c.symbol == line[0] && c.amount == Lookup(payTable, p, line[0])
    ensures c.flag == 0 || c.flag == 1
    ensures c.flag == 1 <==> exists j :: 0 <= j < p && line[j] in wildIds
  {
    Choice(p, CheckWildPresence(line[..p], wildIds), line[0], Lookup(payTable, p, line[0]))
  }

  /** The combination `check_win` reports for a line with its wild mask. */
  function Evaluate(line: seq<int>, wilds: seq<bool>, wildIds: seq<int>, payTable: PayTable): (c: Choice)
    requires |line| > 0 && |wilds| == |line|
    ensures 1 <= c.length <= |line|
    ensures c.flag == 0 || c.flag == 1
    ensures c.symbol in line
    ensures c.amount == Lookup(payTable, c.length, c.symbol)
  {
    var p := FirstNonWild(wilds, 0);
    if p == |line| then Choice(|line|, 1, line[0], Lookup(payTable, |line|, line[0]))
    else
      var main := MainCandidate(line, wilds, wildIds, payTable, p);
      if p >= 2 && AltCandidate(line, wildIds, payTable, p).amount > main.amount
      then AltCandidate(line, wildIds, payTable, p)
      else main
  }

  /** The scan of `check_win` for the first position whose mask entry is false. */
  method FindFirstNonWild(wilds: seq<bool>) returns (firstNonWild: nat)
    ensures firstNonWild == FirstNonWild(wilds, 0)
  {
    var lineLen := |wilds|;
    firstNonWild := lineLen;
    for i := 0 to lineLen
      invariant firstNonWild == lineLen
      invariant FirstNonWild(wilds, 0) == FirstNonWild(wilds, i)
    {
      if !wilds[i] {
        firstNonWild := i;
        break;
      }
    }
  }

  /**
   * The scan of `check_win` that extends the run anchored on the first
   * non-wild symbol `line[firstNonWild]`: the run, together with the wilds
   * before it, ends at `firstNonWild + sequenceLength`.
   */
  method MatchRunLength(line: seq<int>, wilds: seq<bool>, firstNonWild: nat) returns (sequenceLength: nat)
    requires |wilds| == |line| && firstNonWild < |line|
    ensures firstNonWild + sequenceLength == RunEnd(line, wilds, line[firstNonWild], firstNonWild + 1)
  {
    var lineLen := |line|;
    var symbolToMatch := line[firstNonWild];
    sequenceLength := 1;
    for i := firstNonWild + 1 to lineLen
      invariant sequenceLength == i - firstNonWild
      invariant RunEnd(line, wilds, symbolToMatch, firstNonWild + 1) == RunEnd(line, wilds, symbolToMatch, i)
    {
      if wilds[i] || line[i] == symbolToMatch {
        sequenceLength := sequenceLength + 1;
      } else {
        break;
      }
    }
  }

  /**
   * `check_win`: returns the win, the result code and the decoded
   * `(winlines, spinWins)` for that code and win.
   */
  method CheckWin(line: seq<int>, lineId: int, wilds: seq<bool>, wildIds: seq<int>, payTable: PayTable)
    returns (win: real, code: string, winlines: Option<Winline>, spinWins: seq<real>)
    requires |line| > 0 && |wilds| == |line|
    ensures var c := Evaluate(line, wilds, wildIds, payTable);
      win == c.amount && code == FormatCode(c.length, c.flag, c.symbol)
    ensures Extracted(winlines, spinWins) == ExtractWinlineSpinwinData(lineId, code, win)
    ensures spinWins == [win]
    ensures var c := Evaluate(line, wilds, wildIds, payTable);
      c.symbol >= 0 ==> winlines == Some(Winline(lineId, c.length, c.symbol, win))
  {
    ghost var c := Evaluate(line, wilds, wildIds, payTable);
    EvaluateRoundTrip(line, lineId, wilds, wildIds, payTable);

    var lineLen := |line|;
    var firstNonWild := FindFirstNonWild(wilds);

    if firstNonWild == lineLen {
      var symbolToMatch := line[0];
      win := Lookup(payTable, lineLen, symbolToMatch);
      assert c == Choice(lineLen, 1, symbolToMatch, win);
      code := FormatCode(lineLen, 1, symbolToMatch);
      var r := ExtractWinlineSpinwinData(lineId, code, win);
      winlines, spinWins := r.winlines, r.spinWins;
      return;
    }

    var symbolToMatch := line[firstNonWild];
    var sequenceLength := MatchRunLength(line, wilds, firstNonWild);
    ghost var end := RunEnd(line, wilds, line[firstNonWild], firstNonWild + 1);
    assert end == sequenceLength + firstNonWild;
    ghost var main := MainCandidate(line, wilds, wildIds, payTable, firstNonWild);
    assert main == Choice(end, CheckWildPresence(line[..end], wildIds), line[firstNonWild], Lookup(payTable, end, line[firstNonWild]));
    EvaluateMixed(line, wilds, wildIds, payTable, firstNonWild);

    var runEnd := sequenceLength + firstNonWild;
    var mainWin := Lookup(payTable, runEnd, symbolToMatch);
    var wildPresence := CheckWildPresence(line[..runEnd], wildIds);
    assert main == Choice(runEnd, wildPresence, symbolToMatch, mainWin);
    code := FormatCode(runEnd, wildPresence, symbolToMatch);

    if firstNonWild > 0 {
      var firstSymbol := line[0];
      var wildSequence := firstNonWild;
      if wildSequence >= 2 {
        var altWin := Lookup(payTable, wildSequence, firstSymbol);
        assert AltCandidate(line, wildIds, payTable, firstNonWild).amount == altWin;
        if altWin > mainWin {
          wildPresence := CheckWildPresence(line[..wildSequence], wildIds);
          assert c == AltCandidate(line, wildIds, payTable, firstNonWild);
          code := FormatCode(wildSequence, wildPresence, firstSymbol);
          var r := ExtractWinlineSpinwinData(lineId, code, altWin);
          win, winlines, spinWins := altWin, r.winlines, r.spinWins;
          return;
        }
      }
    }

    assert c == main;
    var r := ExtractWinlineSpinwinData(lineId, code, mainWin);
    win, winlines, spinWins := mainWin, r.winlines, r.spinWins;
  }

  // ----- Properties of the evaluation -----

  /** A line with a non-wild position reports the main candidate or the leading wild block. */
  lemma EvaluateMixed(line: seq<int>, wilds: seq<bool>, wildIds: seq<int>, payTable: PayTable, p: nat)
    requires |line| > 0 && |wilds| == |line|
    requires p == FirstNonWild(wilds, 0) && p < |line|
    ensures var main := MainCandidate(line, wilds, wildIds, payTable, p);
      var alt := AltCandidate(line, wildIds, payTable, p);
      Evaluate(line, wilds, wildIds, payTable) == if p >= 2 && alt.amount > main.amount then alt else main
  {
  }

  /** The code of the reported combination decodes back to it when its symbol is non-negative. */
  lemma EvaluateRoundTrip(line: seq<int>, lineId: int, wilds: seq<bool>, wildIds: seq<int>, payTable: PayTable)
    requires |line| > 0 && |wilds| == |line|
    ensures var c := Evaluate(line, wilds, wildIds, payTable);
      c.symbol >= 0 ==>
        ExtractWinlineSpinwinData(lineId, FormatCode(c.length, c.flag, c.symbol), c.amount)
        == Extracted(Some(Winline(lineId, c.length, c.symbol, c.amount)), [c.amount])
  {
    var c := Evaluate(line, wilds, wildIds, payTable);
    if c.symbol >= 0 {
      FormatThenExtract(lineId, c.length, c.flag, c.symbol, c.amount);
    }
  }

  /** `p` is the first position whose mask entry is false. */
  predicate IsFirstNonWild(wilds: seq<bool>, p: nat)
  {
    p < |wilds| && !wilds[p] && forall j :: 0 <= j < p ==> wilds[j]
  }

  /** `[p, e)` is a maximal run of positions that are wild or equal to `line[p]`. */
  predicate IsMaximalRun(line: seq<int>, wilds: seq<bool>, p: nat, e: nat)
    requires |wilds| == |line|
  {
    p < e <= |line|
    && (forall j :: p <= j < e ==> wilds[j] || line[j] == line[p])
    && (e < |line| ==> !wilds[e] && line[e] != line[p])
  }

  /** The scan from `p + 1` stops at the end of the maximal run anchored on `line[p]`. */
  lemma RunEndIsMaximal(line: seq<int>, wilds: seq<bool>, p: nat)
    requires |wilds| == |line| && p < |line|
    ensures IsMaximalRun(line, wilds, p, RunEnd(line, wilds, line[p], p + 1))
  {
    var e := RunEnd(line, wilds, line[p], p + 1);
    forall j | p <= j < e
      ensures wilds[j] || line[j] == line[p]
    {
      if j > p {
        assert Continues(line, wilds, line[p], j);
      }
    }
  }

  /** An all-wild line pays `|line|` copies of its first symbol, flagged as a wild win. */
  lemma AllWildLine(line: seq<int>, wilds: seq<bool>, wildIds: seq<int>, payTable: PayTable)
    requires |line| > 0 && |wilds| == |line|
    requires forall j :: 0 <= j < |wilds| ==> wilds[j]
    ensures var n := |line|;
      Evaluate(line, wilds, wildIds, payTable)
      == Choice(n, 1, line[0], if n in payTable && line[0] in payTable[n] then payTable[n][line[0]] else 0.0)
  {
    assert FirstNonWild(wilds, 0) == |line|;
  }

  lemma FirstNonWildUnique(wilds: seq<bool>, p: nat)
    requires IsFirstNonWild(wilds, p)
    ensures FirstNonWild(wilds, 0) == p
  {
  }

  lemma RunEndUnique(line: seq<int>, wilds: seq<bool>, p: nat, e: nat)
    requires |wilds| == |line| && IsMaximalRun(line, wilds, p, e)
    ensures RunEnd(line, wilds, line[p], p + 1) == e
  {
    var r := RunEnd(line, wilds, line[p], p + 1);
    assert e < r ==> Continues(line, wilds, line[p], e);
  }

  /**
   * A line with a first non-wild position `p` and maximal run `[p, e)`: the
   * main candidate prices `e` copies of `line[p]`, flagged by the wild ids in
   * `line[..e]`; the leading wild block priced as `p` copies of `line[0]`
   * replaces it only when `p >= 2` and it pays strictly more (ties keep the
   * main candidate).
   */
  lemma MixedLine(line: seq<int>, wilds: seq<bool>, wildIds: seq<int>, payTable: PayTable, p: nat, e: nat)
    requires |line| > 0 && |wilds| == |line|
    requires IsFirstNonWild(wilds, p) && IsMaximalRun(line, wilds, p, e)
    ensures var main := Choice(e, CheckWildPresence(line[..e], wildIds), line[p], Lookup(payTable, e, line[p]));
      var alt := Choice(p, CheckWildPresence(line[..p], wildIds), line[0], Lookup(payTable, p, line[0]));
      Evaluate(line, wilds, wildIds, payTable) == if p >= 2 && alt.amount > main.amount then alt else main
  {
    FirstNonWildUnique(wilds, p);
    RunEndUnique(line, wilds, p, e);
  }

  /**
   * When two or more wilds lead, the reported win is the larger of the two
   * candidates' prices; otherwise it is the main candidate's price.
   */
  lemma BestOfTwo(line: seq<int>, wilds: seq<bool>, wildIds: seq<int>, payTable: PayTable, p: nat, e: nat)
    requires |line| > 0 && |wilds| == |line|
    requires IsFirstNonWild(wilds, p) && IsMaximalRun(line, wilds, p, e)
    ensures var mainWin := Lookup(payTable, e, line[p]);
      var altWin := Lookup(payTable, p, line[0]);
      var win := Evaluate(line, wilds, wildIds, payTable).amount;
      if p >= 2 then win >= mainWin && win >= altWin && (win == mainWin || win == altWin)
      else win == mainWin
  {
    MixedLine(line, wilds, wildIds, payTable, p, e);
  }

  /**
   * When the mask comes from the wild ids, the flag says whether a wild id
   * occurs among the symbols of the reported combination, in every branch.
   */
  lemma FlagMeansWildInCombination(line: seq<int>, wildIds: seq<int>, payTable: PayTable)
    requires |line| > 0
    ensures var c := Evaluate(line, CheckWildSymbols(line, wildIds), wildIds, payTable);
      c.flag == 1 <==> exists j :: 0 <= j < c.length && line[j] in wildIds
  {
    var wilds := CheckWildSymbols(line, wildIds);
    var c := Evaluate(line, wilds, wildIds, payTable);
    var p := FirstNonWild(wilds, 0);
    if p == |line| {
      assert wilds[0] && line[0] in wildIds;
    } else {
      var main := MainCandidate(line, wilds, wildIds, payTable, p);
      if p >= 2 && AltCandidate(line, wildIds, payTable, p).amount > main.amount {
        assert c == AltCandidate(line, wildIds, payTable, p);
        assert forall j :: 0 <= j < c.length ==> line[..c.length][j] == line[j];
      } else {
        assert c == main;
        assert forall j :: 0 <= j < c.length ==> line[..c.length][j] == line[j];
      }
    }
  }

  /** With no negative payouts in the table, no line pays a negative amount. */
  lemma NonNegativePayout(line: seq<int>, wilds: seq<bool>, wildIds: seq<int>, payTable: PayTable)
    requires |line| > 0 && |wilds| == |line|
    requires forall n, s :: n in payTable && s in payTable[n] ==> payTable[n][s] >= 0.0
    ensures Evaluate(line, wilds, wildIds, payTable).amount >= 0.0
  {
  }
}
