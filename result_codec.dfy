/**
 * The compact result code `<kind>-<count>-<wild flag>-<symbol>[-...]` and its
 * decoding into a winline record (`extract_winline_spinwin_data`).
 */
module ResultCodec {
  import opened Wrappers
  import opened Text
  import opened Decimal

  /** `[winline_id, combination_count, symbol_id, win_amount]` of a decoded code. */
  datatype Winline = Winline(winlineId: int, combinationCount: int, symbolId: int, winAmount: real)

  /** The pair `(winlines, spinWins)`; an empty winlines list is `None`. */
  datatype Extracted = Extracted(winlines: Option<Winline>, spinWins: seq<real>)

  /** A code decodes when it has at least four `-`-separated parts and parts 1 and 3 are integers. */
  predicate Decodable(code: string)
  {
    var parts := Split(code, '-');
    |parts| >= 4 && ParseInt(parts[1]).Some? && ParseInt(parts[3]).Some?
  }

  /**
   * Decodes `code`. A malformed code yields no winline record, but the win
   * amount is always kept as the single spin win.
   */
  function ExtractWinlineSpinwinData(winlineId: int, code: string, winAmount: real): (r: Extracted)
    ensures r.spinWins == [winAmount]
    ensures r.winlines.Some? <==> Decodable(code)
    ensures r.winlines.Some? ==>
      var parts := Split(code, '-');
      r.winlines.value == Winline(winlineId, ParseInt(parts[1]).value, ParseInt(parts[3]).value, winAmount)
  {
    var parts := Split(code, '-');
    if |parts| < 4 then Extracted(None, [winAmount])
    else
      match (ParseInt(parts[1]), ParseInt(parts[3]))
      case (Some(count), Some(symbol)) => Extracted(Some(Winline(winlineId, count, symbol, winAmount)), [winAmount])
      case _ => Extracted(None, [winAmount])
  }

  /** A code joined from separator-free parts decodes to the integers read from parts 1 and 3. */
  lemma ExtractJoined(winlineId: int, parts: seq<string>, count: int, symbol: int, winAmount: real)
    requires |parts| >= 4
    requires forall k :: 0 <= k < |parts| ==> '-' !in parts[k]
    requires ParseInt(parts[1]) == Some(count) && ParseInt(parts[3]) == Some(symbol)
    ensures ExtractWinlineSpinwinData(winlineId, Join(parts, '-'), winAmount)
         == Extracted(Some(Winline(winlineId, count, symbol, winAmount)), [winAmount])
  {
    SplitJoin(parts, '-');
  }

  /** The code `check_win` emits: `"B-{length}-{flag}-{symbol}"`. */
  function FormatCode(length: int, flag: int, symbol: int): (code: string)
    ensures |code| >= 7 && code[..2] == "B-"
    ensures length >= 0 && flag >= 0 && symbol >= 0 ==>
      Split(code, '-') == ["B", NatToString(length), NatToString(flag), NatToString(symbol)]
  {
    var l, f, y := IntToString(length), IntToString(flag), IntToString(symbol);
    var code := "B-" + l + "-" + f + "-" + y;
    if length >= 0 && flag >= 0 && symbol >= 0 then
      assert code == "B" + ['-'] + l + ['-'] + f + ['-'] + y;
      SplitFour("B", l, f, y, '-');
      code
    else
      code
  }

  lemma {:induction false} FormatCodeParts(length: int, flag: int, symbol: int)
    ensures FormatCode(length, flag, symbol)
         == Join(["B", IntToString(length), IntToString(flag), IntToString(symbol)], '-')
  {
    var l, f, y := IntToString(length), IntToString(flag), IntToString(symbol);
    var ps := ["B", l, f, y];
    assert ps[1..][1..][1..] == [y];
    assert Join(ps[1..][1..], '-') == f + "-" + y;
    assert Join(ps[1..], '-') == l + "-" + (f + "-" + y);
    assert Join(ps, '-') == "B" + "-" + (l + "-" + (f + "-" + y));
  }

  /**
   * Round trip: a code formatted from non-negative numbers decodes to the
   * formatted length and symbol, with the given id and amount.
   */
  lemma FormatThenExtract(winlineId: int, length: int, flag: int, symbol: int, winAmount: real)
    requires length >= 0 && flag >= 0 && symbol >= 0
    ensures ExtractWinlineSpinwinData(winlineId, FormatCode(length, flag, symbol), winAmount)
         == Extracted(Some(Winline(winlineId, length, symbol, winAmount)), [winAmount])
  {
    ParseIntToString(length);
    ParseIntToString(symbol);
  }

  /**
   * A negative symbol is formatted with a second `-`, so part 3 is empty and
   * the code no longer decodes: the winline record is lost.
   */
  lemma NegativeSymbolNotDecoded(winlineId: int, length: int, flag: int, symbol: int, winAmount: real)
    requires length >= 0 && flag >= 0 && symbol < 0
    ensures ExtractWinlineSpinwinData(winlineId, FormatCode(length, flag, symbol), winAmount)
         == Extracted(None, [winAmount])
  {
    var l, f, digits := IntToString(length), IntToString(flag), NatToString(-symbol);
    var ps := ["B", l, f, "", digits];
    assert IntToString(symbol) == "-" + digits;
    FormatCodeParts(length, flag, symbol);
    JoinNegativeLast("B", l, f, digits);
    SplitJoin(ps, '-');
    assert Split(FormatCode(length, flag, symbol), '-')[3] == "";
  }

  /** A last part that starts with the separator reads as an empty part followed by the rest. */
  lemma JoinNegativeLast(a: string, b: string, c: string, d: string)
    ensures Join([a, b, c, "-" + d], '-') == Join([a, b, c, "", d], '-')
  {
    var ps, qs := [a, b, c, "-" + d], [a, b, c, "", d];
    assert ps[1..][1..][1..] == ["-" + d];
    assert qs[1..][1..][1..][1..] == [d];
    assert Join(qs[1..][1..][1..], '-') == "" + "-" + d;
    assert Join(ps[1..][1..], '-') == Join(qs[1..][1..], '-');
    assert ps[0] == qs[0];
    assert Join(ps[1..], '-') == Join(qs[1..], '-');
  }

}
