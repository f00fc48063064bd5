/** The person record used by the line router (shared/cpp/Person.cpp):
    timestamps are whole seconds since a process-wide simulation start, and
    the identifier is formed from a number the router assigns.  A `Person` is
    a C++ value that is copied into lines and into the history, so it is a
    datatype here; the one piece of shared mutable state, the static
    simulation start time, is the class `SimulationClock`. */
module SessionPerson {
  import opened NumericText

  datatype Person = Person(
    expectedWaitTime: real,   // seconds, frozen at admission
    enteringTimestamp: int,   // seconds since the simulation start
    exitingTimestamp: int,    // 0 means "not exited yet"
    lineNumber: int,          // 1-based
    personId: int)
  {
    /** Exited means a non-zero exit stamp; 0 doubles as "never stamped". */
    predicate HasExited() { exitingTimestamp != 0 }

    /** Seconds between entering and reaching the head, 0 while unstamped. */
    function ActualWaitTime(): (w: real)
    {
      if exitingTimestamp == 0 then 0.0 else (exitingTimestamp - enteringTimestamp) as real
    }

    /** Stamps the exit time, only if no exit time is recorded yet. */
    function RecordExit(now: int): (p: Person)
      ensures p.exitingTimestamp == if exitingTimestamp == 0 then now else exitingTimestamp
      ensures p == this.(exitingTimestamp := p.exitingTimestamp)
    {
      if exitingTimestamp == 0 then this.(exitingTimestamp := now) else this
    }

    function SetPersonId(id: int): (p: Person)
      ensures p.personId == id && p == this.(personId := id)
    {
      this.(personId := id)
    }

    /** "person_" followed by the decimal person number. */
    function GetId(): string
    {
      "person_" + IntToString(personId)
    }
  }

  /** `Person(expectedWaitTime, lineNumber)` with the clock reading `now`. */
  function NewPerson(expectedWaitTime: real, lineNumber: int, now: int): (p: Person)
    ensures p.expectedWaitTime == expectedWaitTime && p.lineNumber == lineNumber
    ensures p.enteringTimestamp == now && p.exitingTimestamp == 0 && p.personId == 0
    ensures !p.HasExited() && p.ActualWaitTime() == 0.0
  {
    Person(expectedWaitTime, now, 0, lineNumber, 0)
  }

  /** Once an exit stamp is non-zero, further stamping changes nothing. */
  lemma RecordExitOnce(p: Person, first: int, later: int)
    requires first != 0
    ensures p.RecordExit(first).HasExited()
    ensures p.RecordExit(first).RecordExit(later) == p.RecordExit(first)
  {
  }

  /** The sentinel collision: a stamp taken in the first second is 0, which
      reads as "not exited", so a later call stamps the person again. */
  lemma ExitSentinelCollision(p: Person, later: int)
    requires p.exitingTimestamp == 0
    ensures !p.RecordExit(0).HasExited()
    ensures p.RecordExit(0).ActualWaitTime() == 0.0
    ensures p.RecordExit(0).RecordExit(later).exitingTimestamp == later
  {
  }

  /** The wait is exact: entering time plus the actual wait is the exit time. */
  lemma ActualWaitTimeSpan(p: Person)
    requires p.HasExited()
    ensures p.enteringTimestamp as real + p.ActualWaitTime() == p.exitingTimestamp as real
  {
  }

  /** Two people have the same identifier exactly when they have the same number. */
  lemma GetIdInjective(p: Person, q: Person)
    ensures p.GetId() == q.GetId() <==> p.personId == q.personId
  {
    if p.GetId() == q.GetId() {
      var prefix := "person_";
      assert IntToString(p.personId) == p.GetId()[|prefix|..];
      assert IntToString(q.personId) == q.GetId()[|prefix|..];
      IntToStringInjective(p.personId, q.personId);
    }
  }

  /** What `getCurrentTimestamp` returns when the start time is `start` and the
      wall clock reads `wallMs`: 0 while the start is unset, otherwise whole
      seconds since the start, truncated toward zero as C++ division does. */
  function ClockReading(start: int, wallMs: int): (ts: int)
    ensures start == 0 ==> ts == 0
    ensures start != 0 && wallMs >= start ==> ts >= 0 && ts * 1000 <= wallMs - start < (ts + 1) * 1000
    ensures start != 0 && wallMs < start ==> ts <= 0 && (ts - 1) * 1000 < wallMs - start <= ts * 1000
  {
    if start == 0 then 0 else TruncDiv(wallMs - start, 1000)
  }

  /** The start time after one clock reading: an unset start takes the wall clock. */
  function StartAfterReading(start: int, wallMs: int): int
  {
    if start == 0 then wallMs else start
  }

  /** Within one instant the clock reads the same whether or not the start was
      already set, so every stamp taken during one call agrees. */
  lemma ClockReadingSettles(start: int, wallMs: int)
    ensures ClockReading(StartAfterReading(start, wallMs), wallMs) == ClockReading(start, wallMs)
    ensures StartAfterReading(StartAfterReading(start, wallMs), wallMs) == StartAfterReading(start, wallMs)
  {
    if start == 0 && wallMs != 0 {
      assert TruncDiv(wallMs - wallMs, 1000) == 0;
    }
  }

  /** The process-wide simulation start time `s_simulationStartTime`. */
  class SimulationClock {
    var simulationStartTime: int   // epoch milliseconds, 0 = not set

    constructor ()
      ensures simulationStartTime == 0
    {
      simulationStartTime := 0;
    }

    method SetSimulationStartTime(wallMs: int)
      modifies this
      ensures simulationStartTime == wallMs
    {
      simulationStartTime := wallMs;
    }

    /** The first call with an unset start sets it to the wall clock and
        returns 0; later calls return the seconds elapsed since. */
    method GetCurrentTimestamp(wallMs: int) returns (ts: int)
      modifies this
      ensures ts == ClockReading(old(simulationStartTime), wallMs)
      ensures simulationStartTime == StartAfterReading(old(simulationStartTime), wallMs)
    {
      if simulationStartTime == 0 {
        SetSimulationStartTime(wallMs);
        return 0;
      }
      ts := TruncDiv(wallMs - simulationStartTime, 1000);
    }

    /** The constructor `Person(expectedWaitTime, lineNumber)`: reads the clock once. */
    method CreatePerson(expectedWaitTime: real, lineNumber: int, wallMs: int) returns (p: Person)
      modifies this
      ensures p == NewPerson(expectedWaitTime, lineNumber, ClockReading(old(simulationStartTime), wallMs))
      ensures simulationStartTime == StartAfterReading(old(simulationStartTime), wallMs)
    {
      var now := GetCurrentTimestamp(wallMs);
      p := NewPerson(expectedWaitTime, lineNumber, now);
    }

    /** `recordExit`: the clock is read only when the person is not stamped yet. */
    method StampExit(p: Person, wallMs: int) returns (q: Person)
      modifies this
      ensures p.exitingTimestamp != 0 ==> q == p && simulationStartTime == old(simulationStartTime)
      ensures p.exitingTimestamp == 0 ==> q == p.RecordExit(ClockReading(old(simulationStartTime), wallMs))
      ensures p.exitingTimestamp == 0 ==>
                simulationStartTime == StartAfterReading(old(simulationStartTime), wallMs)
    {
      q := p;
      if p.exitingTimestamp == 0 {
        var now := GetCurrentTimestamp(wallMs);
        q := p.RecordExit(now);
      }
    }
  }
}
