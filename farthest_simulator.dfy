/** The farthest-from-entrance rule of simulations/QueueSimulatorFarthest.cpp:
    line numbers grow with the distance from the entrance; a newcomer joins
    the farthest line that has people and room, or else the farthest line
    with room.  The manager it reads is passed in as two snapshots, indexed by
    line number minus one: whether the line is at capacity, and its count. */
module FarthestSimulator {

  /** Some line has room and people. */
  ghost predicate SomeOpenOccupied(atCapacity: seq<bool>, counts: seq<int>)
    requires |counts| == |atCapacity|
  {
    exists j :: 0 <= j < |atCapacity| && !atCapacity[j] && counts[j] > 0
  }

  /** `getFarthestFromEntranceLine`: two descending scans, each stopping at
      its first hit. */
  method GetFarthestFromEntranceLine(atCapacity: seq<bool>, counts: seq<int>) returns (bestLine: int)
    requires |counts| == |atCapacity|
    ensures bestLine == -1 <==> forall j :: 0 <= j < |atCapacity| ==> atCapacity[j]
    ensures bestLine != -1 ==> 1 <= bestLine <= |atCapacity| && !atCapacity[bestLine - 1]
    ensures SomeOpenOccupied(atCapacity, counts) ==>
              && bestLine != -1 && counts[bestLine - 1] > 0
              && forall j :: bestLine <= j < |atCapacity| ==> atCapacity[j] || counts[j] <= 0
    ensures !SomeOpenOccupied(atCapacity, counts) && bestLine != -1 ==>
              forall j :: bestLine <= j < |atCapacity| ==> atCapacity[j]
  {
    var numberOfLines := |atCapacity|;
    bestLine := -1;

    var i := numberOfLines;
    while i >= 1 && bestLine == -1
      invariant 0 <= i <= numberOfLines
      invariant bestLine == -1 || (1 <= bestLine <= numberOfLines && !atCapacity[bestLine - 1] && counts[bestLine - 1] > 0)
      invariant bestLine == -1 ==> forall j :: i <= j < numberOfLines ==> atCapacity[j] || counts[j] <= 0
      invariant bestLine != -1 ==> forall j :: bestLine <= j < numberOfLines ==> atCapacity[j] || counts[j] <= 0
      decreases i
    {
      if !atCapacity[i - 1] && counts[i - 1] > 0 {
        bestLine := i;
      }
      i := i - 1;
    }

    if bestLine == -1 {
      i := numberOfLines;
      while i >= 1 && bestLine == -1
        invariant 0 <= i <= numberOfLines
        invariant bestLine == -1 || (1 <= bestLine <= numberOfLines && !atCapacity[bestLine - 1])
        invariant bestLine == -1 ==> forall j :: i <= j < numberOfLines ==> atCapacity[j]
        invariant bestLine != -1 ==> forall j :: bestLine <= j < numberOfLines ==> atCapacity[j]
        decreases i
      {
        if !atCapacity[i - 1] {
          bestLine := i;
        }
        i := i - 1;
      }
    }
  }
}
