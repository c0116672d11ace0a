/** The concrete scenarios of the repository's unit tests, stated against the model. */
module Scenarios {
  import opened Wrappers
  import opened Text
  import opened Decimal
  import opened WildDetector
  import opened ResultCodec
  import opened WinEvaluator
  import opened TicketBuilder

  /** The sample pay table of the tests. */
  function SamplePayTable(): PayTable
  {
    map[2 := map[1 := 10.0, 2 := 15.0, 3 := 20.0, 5 := 25.0],
        3 := map[1 := 20.0, 2 := 30.0, 3 := 40.0, 5 := 50.0],
        4 := map[1 := 40.0, 2 := 60.0, 3 := 80.0, 5 := 100.0],
        5 := map[1 := 100.0, 2 := 150.0, 3 := 200.0, 5 := 250.0]]
  }

  lemma WildMaskNoWilds()
    ensures CheckWildSymbols([1, 2, 3, 4, 5], [10, 11]) == [false, false, false, false, false]
  {
    NoWildIdsInLine([1, 2, 3, 4, 5], [10, 11]);
  }

  lemma WildMaskSomeWilds()
    ensures CheckWildSymbols([1, 5, 3, 5, 2], [5, 10]) == [false, true, false, true, false]
  {
  }

  lemma WildMaskAllWilds()
    ensures CheckWildSymbols([5, 10, 5, 10, 5], [5, 10]) == [true, true, true, true, true]
    ensures CheckWildSymbols([], [5, 10]) == []
  {
  }

  /** The presences the wild fixture table expects for its lines with wild ids. */
  lemma WildFixturePresences()
    ensures CheckWildPresence([1, 2, 3, 4, 5], [10, 11]) == 0
    ensures CheckWildPresence([1, 5, 3, 5, 2], [5, 10]) == 1
    ensures CheckWildPresence([5, 10, 5, 10, 5], [5, 10]) == 1
    ensures CheckWildPresence([], [5, 10]) == 0
  {
    NoWildIdsInLine([1, 2, 3, 4, 5], [10, 11]);
  }

  /** The fixture case without wild ids: nothing is marked, nothing is present. */
  lemma WildFixtureNoIds()
    ensures CheckWildSymbols([1, 2, 3], []) == [false, false, false]
    ensures CheckWildPresence([1, 2, 3], []) == 0
  {
    NoWildIdsInLine([1, 2, 3], []);
  }

  lemma WildPresenceScenarios()
    ensures CheckWildPresence([1, 2, 3, 4], [3, 5]) == 1
    ensures CheckWildPresence([1, 2, 6, 4], [3, 5]) == 0
    ensures CheckWildPresence([1, 2, 3, 4], []) == 0
    ensures CheckWildPresence([], [5, 10]) == 0
  {
  }

  /** "B-3-0-02-1" decodes with the leading zero of its symbol ignored. */
  lemma DecodeValidCode()
    ensures ExtractWinlineSpinwinData(1, "B-3-0-02-1", 50.0) == Extracted(Some(Winline(1, 3, 2, 50.0)), [50.0])
  {
    assert Join(["B", "3", "0", "02", "1"], '-') == "B-3-0-02-1";
    ParseIntLeadingZero("2");
    assert "0" + "2" == "02";
    ExtractJoined(1, ["B", "3", "0", "02", "1"], 3, 2, 50.0);
  }

  /** The fixture's valid wild code "B-2-1-5-1". */
  lemma DecodeFixtureWildCode()
    ensures ExtractWinlineSpinwinData(1, "B-2-1-5-1", 50.0) == Extracted(Some(Winline(1, 2, 5, 50.0)), [50.0])
  {
    assert Join(["B", "2", "1", "5", "1"], '-') == "B-2-1-5-1";
    ExtractJoined(1, ["B", "2", "1", "5", "1"], 2, 5, 50.0);
  }

  /** The fixture's valid four-symbol code "B-4-0-03-1", symbol written with a leading zero. */
  lemma DecodeFixtureFourCode()
    ensures ExtractWinlineSpinwinData(1, "B-4-0-03-1", 50.0) == Extracted(Some(Winline(1, 4, 3, 50.0)), [50.0])
  {
    assert Join(["B", "4", "0", "03", "1"], '-') == "B-4-0-03-1";
    ParseIntLeadingZero("3");
    assert "0" + "3" == "03";
    ExtractJoined(1, ["B", "4", "0", "03", "1"], 4, 3, 50.0);
  }

  lemma DecodeTriggerCode()
    ensures ExtractWinlineSpinwinData(5, "TF-5-1-10-2", 100.0) == Extracted(Some(Winline(5, 5, 10, 100.0)), [100.0])
  {
    assert Join(["TF", "5", "1", "10", "2"], '-') == "TF-5-1-10-2";
    assert NatToString(10) == "10";
    ParseIntToString(10);
    ExtractJoined(5, ["TF", "5", "1", "10", "2"], 5, 10, 100.0);
  }

  /** Too few parts: the amount is kept, the winline record is lost. */
  lemma DecodeTooFewParts()
    ensures ExtractWinlineSpinwinData(1, "B-3", 50.0) == Extracted(None, [50.0])
  {
    assert Join(["B", "3"], '-') == "B-3";
    SplitJoin(["B", "3"], '-');
  }

  /** The malformed fixture codes without a non-numeric part: too few parts, or none at all. */
  lemma DecodeMalformedFixtures()
    ensures ExtractWinlineSpinwinData(1, "INVALID", 50.0) == Extracted(None, [50.0])
    ensures ExtractWinlineSpinwinData(1, "B-2", 50.0) == Extracted(None, [50.0])
    ensures ExtractWinlineSpinwinData(1, "", 50.0) == Extracted(None, [50.0])
  {
    SplitNoSeparator("INVALID", '-');
    assert Join(["B", "2"], '-') == "B-2";
    SplitJoin(["B", "2"], '-');
  }

  /** Non-numeric parts: the amount is kept, the winline record is lost. */
  lemma DecodeNonNumeric()
    ensures ExtractWinlineSpinwinData(1, "B-a-b-c-d", 50.0) == Extracted(None, [50.0])
  {
    assert "B-a-b-c-d" == "B" + "-" + "a-b-c-d";
    SplitFirstPart("B", '-', "a-b-c-d");
    assert "a-b-c-d" == "a" + "-" + "b-c-d";
    SplitFirstPart("a", '-', "b-c-d");
    assert Split("B-a-b-c-d", '-')[1] == "a";
    assert !IsDigit('a');
  }

  lemma RegularWinNoWilds()
    ensures Evaluate([2, 2, 2, 1, 3], [false, false, false, false, false], [5], SamplePayTable())
         == Choice(3, 0, 2, 30.0)
    ensures FormatCode(3, 0, 2) == "B-3-0-2"
  {
    var line := [2, 2, 2, 1, 3];
    var wilds := [false, false, false, false, false];
    MixedLine(line, wilds, [5], SamplePayTable(), 0, 3);
  }

  /** `check_win` itself on the regular-win line: the code, the decoded record and the spin wins. */
  method RegularWinCheckWin() returns (win: real, code: string, winlines: Option<Winline>, spinWins: seq<real>)
    ensures win == 30.0 && code == "B-3-0-2"
    ensures winlines == Some(Winline(1, 3, 2, 30.0)) && spinWins == [30.0]
  {
    RegularWinNoWilds();
    win, code, winlines, spinWins := CheckWin([2, 2, 2, 1, 3], 1, [false, false, false, false, false], [5], SamplePayTable());
  }

  lemma WinWithWilds()
    ensures Evaluate([5, 2, 2, 1, 3], [true, false, false, false, false], [5], SamplePayTable())
         == Choice(3, 1, 2, 30.0)
    ensures FormatCode(3, 1, 2) == "B-3-1-2"
  {
    var line := [5, 2, 2, 1, 3];
    var wilds := [true, false, false, false, false];
    MixedLine(line, wilds, [5], SamplePayTable(), 1, 3);
    assert line[..3][0] == 5;
  }

  lemma AllWildsScenario()
    ensures Evaluate([5, 5, 5, 5, 5], [true, true, true, true, true], [5], SamplePayTable())
         == Choice(5, 1, 5, 250.0)
    ensures FormatCode(5, 1, 5) == "B-5-1-5"
  {
    AllWildLine([5, 5, 5, 5, 5], [true, true, true, true, true], [5], SamplePayTable());
  }

  /** Two leading wilds priced alone (25) lose to the run through symbol 3 (40). */
  lemma AlternativeWildPattern()
    ensures Evaluate([5, 5, 3, 2, 1], [true, true, false, false, false], [5], SamplePayTable())
         == Choice(3, 1, 3, 40.0)
    ensures FormatCode(3, 1, 3) == "B-3-1-3"
  {
    var line := [5, 5, 3, 2, 1];
    var wilds := [true, true, false, false, false];
    MixedLine(line, wilds, [5], SamplePayTable(), 2, 3);
    assert line[..3][0] == 5;
  }

  /** The leading wild block wins once it pays strictly more than the run. */
  lemma AlternativeWins()
    ensures Evaluate([5, 5, 3, 2, 1], [true, true, false, false, false], [5], map[2 := map[5 := 25.0], 3 := map[3 := 5.0]])
         == Choice(2, 1, 5, 25.0)
  {
    var line := [5, 5, 3, 2, 1];
    var wilds := [true, true, false, false, false];
    MixedLine(line, wilds, [5], map[2 := map[5 := 25.0], 3 := map[3 := 5.0]], 2, 3);
    assert line[..2][0] == 5;
  }

  /** `check_win` itself when the leading wild block wins: its code and record. */
  method AlternativeWinsCheckWin() returns (win: real, code: string, winlines: Option<Winline>, spinWins: seq<real>)
    ensures win == 25.0 && code == "B-2-1-5"
    ensures winlines == Some(Winline(7, 2, 5, 25.0)) && spinWins == [25.0]
  {
    AlternativeWins();
    assert FormatCode(2, 1, 5) == "B-2-1-5";
    win, code, winlines, spinWins := CheckWin([5, 5, 3, 2, 1], 7, [true, true, false, false, false], [5],
                                              map[2 := map[5 := 25.0], 3 := map[3 := 5.0]]);
  }

  lemma NoWin()
    ensures Evaluate([1, 2, 3, 4, 6], [false, false, false, false, false], [5], map[1 := map[]]).amount == 0.0
  {
  }

  lemma MissingPayTableEntry()
    ensures Evaluate([9, 9, 9, 9, 9], [false, false, false, false, false], [5], SamplePayTable())
         == Choice(5, 0, 9, 0.0)
    ensures FormatCode(5, 0, 9) == "B-5-0-9"
  {
    var line := [9, 9, 9, 9, 9];
    MixedLine(line, [false, false, false, false, false], [5], SamplePayTable(), 0, 5);
  }

  lemma IntegrationWilds()
    ensures CheckWildSymbols([5, 2, 2, 5, 1], [5]) == [true, false, false, true, false]
    ensures CheckWildPresence([5, 2, 2, 5, 1], [5]) == 1
  {
  }

  /** The integration line: a lone leading wild, then 2, 2, a wild, then the break at 1. */
  lemma IntegrationWin()
    ensures Evaluate([5, 2, 2, 5, 1], [true, false, false, true, false], [5],
                     map[2 := map[2 := 10.0, 5 := 15.0], 3 := map[2 := 25.0, 5 := 30.0], 4 := map[2 := 50.0, 5 := 60.0]])
         == Choice(4, 1, 2, 50.0)
    ensures FormatCode(4, 1, 2) == "B-4-1-2"
  {
    var line := [5, 2, 2, 5, 1];
    var wilds := [true, false, false, true, false];
    MixedLine(line, wilds, [5], map[2 := map[2 := 10.0, 5 := 15.0], 3 := map[2 := 25.0, 5 := 30.0], 4 := map[2 := 50.0, 5 := 60.0]], 1, 4);
    assert line[..4][0] == 5;
  }

  lemma IntegrationTicket()
    ensures ExtractGameDetail(55.0, "normal", [[5, 2, 2], [5, 1, 3]], [], [55.0]).reels == [5, 2, 2, 5, 1, 3]
  {
  }

  lemma TicketScenario()
    ensures ExtractGameDetail(150.0, "normal", [[1, 2, 3], [4, 5, 6], [7, 8, 9]], [], [50.0, 100.0])
         == GameTicket(150.0, "normal", [1, 2, 3, 4, 5, 6, 7, 8, 9], [50.0, 100.0])
  {
  }

  lemma TicketEmptyMatrix()
    ensures ExtractGameDetail<int>(0.0, "bonus", [], [], []) == GameTicket(0.0, "bonus", [], [])
  {
  }

  lemma TicketTriggerTypes()
    ensures ExtractGameDetail(100.0, "normal", [[1, 2], [3, 4]], [], [100.0]).triggerType == "normal"
    ensures ExtractGameDetail(100.0, "bonus", [[1, 2], [3, 4]], [], [100.0]).triggerType == "bonus"
    ensures ExtractGameDetail(100.0, "free_spin", [[1, 2], [3, 4]], [], [100.0]).triggerType == "free_spin"
  {
  }
}
