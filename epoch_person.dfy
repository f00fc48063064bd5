/** The person record of the later snapshot (shared/cpp/queueManagment/Person.cpp):
    timestamps are epoch milliseconds, the wait is reported in seconds and the
    identifier is formed from the entering timestamp. */
module EpochPerson {
  import opened NumericText

  datatype Person = Person(
    expectedWaitTime: real,   // seconds
    enteringTimestamp: int,   // epoch milliseconds
    exitingTimestamp: int,    // epoch milliseconds, 0 = not exited
    lineNumber: int)
  {
    predicate HasExited() { exitingTimestamp != 0 }

    /** Seconds between entering and exiting, 0 while not exited. */
    function ActualWaitTime(): (w: real)
    {
      if exitingTimestamp == 0 then 0.0
      else (exitingTimestamp - enteringTimestamp) as real / 1000.0
    }

    function RecordExit(nowMs: int): (p: Person)
      ensures p.exitingTimestamp == if exitingTimestamp == 0 then nowMs else exitingTimestamp
      ensures p == this.(exitingTimestamp := p.exitingTimestamp)
    {
      if exitingTimestamp == 0 then this.(exitingTimestamp := nowMs) else this
    }

    /** "person_" followed by the entering timestamp. */
    function GetId(): string
    {
      "person_" + IntToString(enteringTimestamp)
    }
  }

  /** `Person(expectedWaitTime, lineNumber)`: the clock is the epoch clock itself. */
  function NewPerson(expectedWaitTime: real, lineNumber: int, nowMs: int): (p: Person)
    ensures p.expectedWaitTime == expectedWaitTime && p.lineNumber == lineNumber
    ensures p.enteringTimestamp == nowMs && !p.HasExited() && p.ActualWaitTime() == 0.0
  {
    Person(expectedWaitTime, nowMs, 0, lineNumber)
  }

  lemma RecordExitOnce(p: Person, first: int, later: int)
    requires first != 0
    ensures p.RecordExit(first).RecordExit(later) == p.RecordExit(first)
  {
  }

  /** The wait in seconds times 1000 is the stamped span in milliseconds. */
  lemma ActualWaitTimeMillis(p: Person)
    requires p.HasExited()
    ensures p.ActualWaitTime() * 1000.0 == (p.exitingTimestamp - p.enteringTimestamp) as real
  {
  }

  /** Identifiers collide exactly for people admitted in the same millisecond. */
  lemma GetIdCollision(p: Person, q: Person)
    ensures p.GetId() == q.GetId() <==> p.enteringTimestamp == q.enteringTimestamp
  {
    if p.GetId() == q.GetId() {
      var prefix := "person_";
      assert IntToString(p.enteringTimestamp) == p.GetId()[|prefix|..];
      assert IntToString(q.enteringTimestamp) == q.GetId()[|prefix|..];
      IntToStringInjective(p.enteringTimestamp, q.enteringTimestamp);
    }
  }
}
