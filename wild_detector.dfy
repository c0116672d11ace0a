/**
 * Wild detection: which positions of a payline hold a wild symbol, and whether
 * any wild symbol is present at all (`check_wild_symbols`, `check_wild_presence`).
 */
module WildDetector {

  /** The per-position wild mask of `line`: one boolean per symbol, in order. */
  function CheckWildSymbols(line: seq<int>, wildIds: seq<int>): (mask: seq<bool>)
    ensures |mask| == |line|
    ensures forall i :: 0 <= i < |line| ==> (mask[i] <==> line[i] in wildIds)
    decreases |line|
  {
    if line == [] then [] else [line[0] in wildIds] + CheckWildSymbols(line[1..], wildIds)
  }

  /** 1 when some symbol of `line` is a wild id, 0 otherwise. */
  function CheckWildPresence(line: seq<int>, wildIds: seq<int>): (present: int)
    ensures present == 0 || present == 1
    ensures present == 1 <==> exists i :: 0 <= i < |line| && line[i] in wildIds
    decreases |line|
  {
    if line == [] then 0
    else if line[0] in wildIds then 1
    else CheckWildPresence(line[1..], wildIds)
  }

  /** Ids that occur nowhere in the line give an all-false mask and no presence. */
  lemma NoWildIdsInLine(line: seq<int>, wildIds: seq<int>)
    requires forall i :: 0 <= i < |line| ==> line[i] !in wildIds
    ensures CheckWildSymbols(line, wildIds) == seq(|line|, _ => false)
    ensures CheckWildPresence(line, wildIds) == 0
  {
  }

  /** The two detectors agree: presence is 1 exactly when the mask holds a true. */
  lemma PresenceMatchesMask(line: seq<int>, wildIds: seq<int>)
    ensures CheckWildPresence(line, wildIds) == 1 <==> true in CheckWildSymbols(line, wildIds)
  {
    var mask := CheckWildSymbols(line, wildIds);
    if true in mask {
      var i :| 0 <= i < |mask| && mask[i];
      assert line[i] in wildIds;
    }
  }

}
