/** The comparison and optimisation windows of readIndicesFile (lines
    450-474): a start and an end step per location, 1-indexed. The file is
    given as the integers it holds, read two per location. */
module Indices {

  /** The end rule of line 467: -1, or any end past the location's last
      step, means the last step. The end index never lies past the last
      step, and the value read is kept exactly when it is neither -1 nor past
      the last step (or happens to equal it). */
  function EndIndex(e: int, steps: int): (r: int)
    ensures r <= steps
    ensures e == -1 || e > steps ==> r == steps
    ensures r == e <==> (e != -1 && e <= steps) || e == steps
  {
    if e == -1 || e > steps then steps else e
  }

  /** The start of location loc: 1 without a file; with one, the integer read
      for it, or what the array held when the file ran out first (fscanf then
      assigns nothing). */
  function StartAt(noFile: bool, ints: seq<int>, loc: nat, held: int): int
  {
    if noFile then 1 else if 2 * loc < |ints| then ints[2 * loc] else held
  }

  /** The end of location loc: the last step without a file; with one, the
      integer read for it (or what the array held) under the rule of line
      467. */
  function EndAt(noFile: bool, ints: seq<int>, loc: nat, held: int, steps: int): int
  {
    if noFile then steps
    else EndIndex(if 2 * loc + 1 < |ints| then ints[2 * loc + 1] else held, steps)
  }

  /** Without a file every window is the whole series [1, steps]; with one,
      no end lies past its location's last step and the start is taken as
      read. */
  lemma WindowRules(noFile: bool, ints: seq<int>, loc: nat, heldStart: int, heldEnd: int, steps: int)
    ensures noFile ==> StartAt(noFile, ints, loc, heldStart) == 1
    ensures noFile ==> EndAt(noFile, ints, loc, heldEnd, steps) == steps
    ensures EndAt(noFile, ints, loc, heldEnd, steps) <= steps
    ensures !noFile && 2 * loc < |ints| ==> StartAt(noFile, ints, loc, heldStart) == ints[2 * loc]
    ensures !noFile && 2 * loc + 1 < |ints| && ints[2 * loc + 1] != -1 && ints[2 * loc + 1] <= steps ==>
              EndAt(noFile, ints, loc, heldEnd, steps) == ints[2 * loc + 1]
    ensures !noFile && 2 * loc + 1 < |ints| && (ints[2 * loc + 1] == -1 || ints[2 * loc + 1] > steps) ==>
              EndAt(noFile, ints, loc, heldEnd, steps) == steps
  {
  }

  /** readIndicesFile (lines 450-474): an empty file name means no file.
      Entries 0..numLocs-1 of both arrays are set by the rules above;
      nothing else is written. */
  method ReadIndicesFile(fileName: string, ints: seq<int>, startIndices: array<int>,
                         endIndices: array<int>, numLocs: nat, steps: seq<int>)
    modifies startIndices, endIndices
    requires startIndices != endIndices
    requires numLocs <= startIndices.Length && numLocs <= endIndices.Length && numLocs <= |steps|
    ensures forall loc :: 0 <= loc < numLocs ==>
              startIndices[loc] == StartAt(fileName == "", ints, loc, old(startIndices[loc]))
    ensures forall loc :: 0 <= loc < numLocs ==>
              endIndices[loc] == EndAt(fileName == "", ints, loc, old(endIndices[loc]), steps[loc])
    ensures forall loc :: numLocs <= loc < startIndices.Length ==> startIndices[loc] == old(startIndices[loc])
    ensures forall loc :: numLocs <= loc < endIndices.Length ==> endIndices[loc] == old(endIndices[loc])
  {
    var noFile := fileName == "";
    var loc := 0;
    while loc < numLocs
      invariant 0 <= loc <= numLocs
      invariant forall l :: 0 <= l < loc ==> startIndices[l] == StartAt(noFile, ints, l, old(startIndices[l]))
      invariant forall l :: 0 <= l < loc ==>
                  endIndices[l] == EndAt(noFile, ints, l, old(endIndices[l]), steps[l])
      invariant forall l :: loc <= l < startIndices.Length ==> startIndices[l] == old(startIndices[l])
      invariant forall l :: loc <= l < endIndices.Length ==> endIndices[l] == old(endIndices[l])
    {
      if noFile {
        startIndices[loc] := 1;
        endIndices[loc] := steps[loc];
      } else {
        if 2 * loc < |ints| {
          startIndices[loc] := ints[2 * loc];
        }
        if 2 * loc + 1 < |ints| {
          endIndices[loc] := ints[2 * loc + 1];
        }
        if endIndices[loc] == -1 || endIndices[loc] > steps[loc] {
          endIndices[loc] := steps[loc];
        }
      }
      loc := loc + 1;
    }
  }
}
