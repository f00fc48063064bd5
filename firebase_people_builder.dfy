/** The people-summary helpers of shared/cpp/FirebasePeopleStructureBuilder.cpp:
    the summary over a list of people, the `hasExited` field of a person record
    and the store paths.  JSON text and the time stamp are not modelled. */
module FirebasePeopleStructureBuilder {
  import opened SessionPerson

  /** The five numeric fields of `PeopleSummary` (the `lastUpdated` text is a clock reading). */
  datatype PeopleSummary = PeopleSummary(
    totalPeople: int,
    activePeople: int,           // people still waiting to reach the head
    completedPeople: int,        // people with an exit stamp
    averageExpectedWait: real,
    averageActualWait: real)     // over completed people only

  /** `PersonData(person)`: the fields of a person record, as copied from a `Person`. */
  datatype PersonData = PersonData(
    personId: string,
    expectedWaitTime: real,
    enteringTimestamp: int,
    exitingTimestamp: int,
    lineNumber: int,
    actualWaitTime: real)

  function ToPersonData(p: Person): (d: PersonData)
    ensures d.personId == p.GetId() && d.actualWaitTime == p.ActualWaitTime()
    ensures d.enteringTimestamp == p.enteringTimestamp && d.exitingTimestamp == p.exitingTimestamp
    ensures d.expectedWaitTime == p.expectedWaitTime && d.lineNumber == p.lineNumber
  {
    PersonData(p.GetId(), p.expectedWaitTime, p.enteringTimestamp, p.exitingTimestamp,
               p.lineNumber, p.ActualWaitTime())
  }

  /** The text of the `hasExited` field written for a person record. */
  function HasExitedField(d: PersonData): (s: string)
    ensures s == "true" || s == "false"
  {
    if d.exitingTimestamp != 0 then "true" else "false"
  }

  /** The record says "exited" exactly when the person has exited. */
  lemma HasExitedFieldAgrees(p: Person)
    ensures HasExitedField(ToPersonData(p)) == "true" <==> p.HasExited()
  {
  }

  function GetPersonDataPath(personId: string): string
  {
    "people/" + personId
  }

  function GetPeopleSummaryPath(): string
  {
    "overallStats"
  }

  /** Different people identifiers never share a path, and no person path is the summary path. */
  lemma PersonPathsDistinct(a: string, b: string)
    ensures GetPersonDataPath(a) == GetPersonDataPath(b) <==> a == b
    ensures GetPersonDataPath(a) != GetPeopleSummaryPath()
  {
    if GetPersonDataPath(a) == GetPersonDataPath(b) {
      assert a == GetPersonDataPath(a)[7..];
      assert b == GetPersonDataPath(b)[7..];
    }
    assert GetPersonDataPath(a)[0] == 'p' != 'o' == GetPeopleSummaryPath()[0];
  }

  /** Number of people with an exit stamp. */
  function CountExited(s: seq<Person>): (n: nat)
    ensures n <= |s|
  {
    if s == [] then 0
    else CountExited(s[..|s| - 1]) + (if s[|s| - 1].HasExited() then 1 else 0)
  }

  function SumExpectedWait(s: seq<Person>): real
  {
    if s == [] then 0.0 else SumExpectedWait(s[..|s| - 1]) + s[|s| - 1].expectedWaitTime
  }

  /** Sum of the actual waits of the people who have exited. */
  function SumActualWaitOfExited(s: seq<Person>): real
  {
    if s == [] then 0.0
    else
      var last := s[|s| - 1];
      SumActualWaitOfExited(s[..|s| - 1]) + (if last.HasExited() then last.ActualWaitTime() else 0.0)
  }

  /** `createPeopleSummary`: counts and averages over all people; each average
      is 0 when its denominator is 0. */
  method CreatePeopleSummary(allPeople: seq<Person>) returns (summary: PeopleSummary)
    ensures summary.totalPeople == |allPeople|
    ensures summary.completedPeople == CountExited(allPeople)
    ensures summary.activePeople == |allPeople| - CountExited(allPeople) >= 0
    ensures summary.activePeople + summary.completedPeople == summary.totalPeople
    ensures summary.averageExpectedWait ==
              if |allPeople| > 0 then SumExpectedWait(allPeople) / (|allPeople| as real) else 0.0
    ensures summary.averageActualWait ==
              if CountExited(allPeople) > 0
              then SumActualWaitOfExited(allPeople) / (CountExited(allPeople) as real)
              else 0.0
  {
    var totalPeople := |allPeople|;
    var activePeople := 0;
    var completedPeople := 0;
    var totalExpectedWait := 0.0;
    var totalActualWait := 0.0;

    var i := 0;
    while i < |allPeople|
      invariant 0 <= i <= |allPeople|
      invariant completedPeople == CountExited(allPeople[..i])
      invariant activePeople == i - completedPeople
      invariant totalExpectedWait == SumExpectedWait(allPeople[..i])
      invariant totalActualWait == SumActualWaitOfExited(allPeople[..i])
    {
      var person := allPeople[i];
      assert allPeople[..i + 1][..i] == allPeople[..i];
      totalExpectedWait := totalExpectedWait + person.expectedWaitTime;
      if person.HasExited() {
        completedPeople := completedPeople + 1;
        totalActualWait := totalActualWait + person.ActualWaitTime();
      } else {
        activePeople := activePeople + 1;
      }
      i := i + 1;
    }
    assert allPeople[..i] == allPeople;

    var averageExpectedWait := if totalPeople > 0 then totalExpectedWait / (totalPeople as real) else 0.0;
    var averageActualWait := if completedPeople > 0 then totalActualWait / (completedPeople as real) else 0.0;
    summary := PeopleSummary(totalPeople, activePeople, completedPeople, averageExpectedWait, averageActualWait);
  }
}
