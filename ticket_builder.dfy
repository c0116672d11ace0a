/**
 * The per-round game ticket (`extract_game_detail`): the total win, the
 * trigger type and the spin wins passed through, and the reel matrix
 * flattened row by row.
 */
module TicketBuilder {
  import opened Wrappers
  import opened ResultCodec

  datatype GameTicket<T> = GameTicket(win: real, triggerType: string, reels: seq<T>, spinWins: seq<real>)

  /** Row-major concatenation of the rows of `matrix`. */
  function Flatten<T>(matrix: seq<seq<T>>): (cells: seq<T>)
    ensures |cells| == Size(matrix)
    decreases |matrix|
  {
    if matrix == [] then [] else matrix[0] + Flatten(matrix[1..])
  }

  /** The number of cells in `matrix`. */
  function Size<T>(matrix: seq<seq<T>>): nat
    decreases |matrix|
  {
    if matrix == [] then 0 else |matrix[0]| + Size(matrix[1..])
  }

  /** The number of cells in the rows before row `i`. */
  function Offset<T>(matrix: seq<seq<T>>, i: nat): nat
    requires i <= |matrix|
  {
    Size(matrix[..i])
  }

  /** Row `i` of `matrix` occupies the cells right after the rows before it. */
  lemma {:induction false} FlattenRow<T>(matrix: seq<seq<T>>, i: nat)
    requires i < |matrix|
    ensures Offset(matrix, i) + |matrix[i]| <= |Flatten(matrix)|
    ensures Flatten(matrix)[Offset(matrix, i)..Offset(matrix, i) + |matrix[i]|] == matrix[i]
    decreases |matrix|
  {
    if i == 0 {
      assert matrix[..0] == [];
    } else {
      var rest := matrix[1..];
      FlattenRow(rest, i - 1);
      assert rest[..i - 1] == matrix[..i][1..];
      assert Offset(matrix, i) == |matrix[0]| + Offset(rest, i - 1);
      var a, b := matrix[0], Flatten(rest);
      var x, y := Offset(rest, i - 1), Offset(rest, i - 1) + |matrix[i]|;
      assert Flatten(matrix) == a + b;
      assert (a + b)[|a| + x..|a| + y] == b[x..y];
    }
  }

  /** Flattening is row-major: every row, in order, at its offset. */
  lemma FlattenRowMajor<T>(matrix: seq<seq<T>>)
    ensures |Flatten(matrix)| == Size(matrix)
    ensures forall i :: 0 <= i < |matrix| ==>
      Offset(matrix, i) + |matrix[i]| <= |Flatten(matrix)|
      && Flatten(matrix)[Offset(matrix, i)..Offset(matrix, i) + |matrix[i]|] == matrix[i]
  {
    forall i | 0 <= i < |matrix|
      ensures Offset(matrix, i) + |matrix[i]| <= |Flatten(matrix)|
      ensures Flatten(matrix)[Offset(matrix, i)..Offset(matrix, i) + |matrix[i]|] == matrix[i]
    {
      FlattenRow(matrix, i);
    }
  }

  /**
   * `extract_game_detail`: `winlines` is accepted but never used; every other
   * field is passed through and the reels are the matrix in row-major order.
   */
  function ExtractGameDetail<T>(totalWin: real, triggerType: string, matrix: seq<seq<T>>,
                                winlines: seq<Option<Winline>>, spinWins: seq<real>): (t: GameTicket<T>)
    ensures t.win == totalWin && t.triggerType == triggerType && t.spinWins == spinWins
    ensures |t.reels| == Size(matrix)
    ensures forall i :: 0 <= i < |matrix| ==>
      Offset(matrix, i) + |matrix[i]| <= |t.reels|
      && t.reels[Offset(matrix, i)..Offset(matrix, i) + |matrix[i]|] == matrix[i]
  {
    var t := GameTicket(totalWin, triggerType, Flatten(matrix), spinWins);
    FlattenRowMajor(matrix);
    assert t.reels == Flatten(matrix);
    t
  }

  /** The winlines argument has no effect on the ticket. */
  lemma WinlinesIgnored<T>(totalWin: real, triggerType: string, matrix: seq<seq<T>>,
                           w1: seq<Option<Winline>>, w2: seq<Option<Winline>>, spinWins: seq<real>)
    ensures ExtractGameDetail(totalWin, triggerType, matrix, w1, spinWins)
         == ExtractGameDetail(totalWin, triggerType, matrix, w2, spinWins)
  {
  }
}
