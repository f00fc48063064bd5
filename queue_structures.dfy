/** The fixed-size records of shared/cpp/QueueStructures.cpp that the
    embedded side fills in: a bounded table of named sensor readings and a
    queue record with up to ten lines, their counts, the total and the
    recommended line.  C strings are `CString`s (no NUL inside), a null pointer
    is `None`, `float` and `double` are `real`, and the wall clock that
    `updateTimestamp` reads is the parameter `nowSeconds`. */
module QueueStructures {
  import opened Wrappers

  /** The text of a C string: everything before its terminating NUL. */
  type CString = s: string | '\0' !in s

  /** `strncpy` into a buffer of `size` characters that is then NUL-terminated:
      at most `size - 1` characters survive. */
  function CopyBounded(s: CString, size: nat): (r: CString)
    requires size >= 1
    ensures |r| <= size - 1
    ensures |s| <= size - 1 ==> r == s
    ensures |s| > size - 1 ==> r == s[..size - 1]
  {
    if |s| <= size - 1 then s else s[..size - 1]
  }

  /** One sensor slot. */
  datatype Sensor = Sensor(name: CString, value: real, timestamp: int)

  const MAX_SENSOR_NAME_LENGTH: nat := 32
  const MAX_SENSORS: nat := 16

  /** The position of the first slot named `name`, or `|slots|` when none is. */
  function FirstNamed(slots: seq<Sensor>, name: string): (i: nat)
    ensures i <= |slots|
    ensures i < |slots| ==> slots[i].name == name
    ensures forall j :: 0 <= j < i ==> slots[j].name != name
  {
    if slots == [] then 0
    else if slots[0].name == name then 0
    else 1 + FirstNamed(slots[1..], name)
  }

  /** The slots after `removeSensor` deletes slot `k` of the first `n`: the
      later ones move down a place and the old last one stays behind. */
  function ShiftedOut(slots: seq<Sensor>, k: int, n: int): (r: seq<Sensor>)
    requires 0 <= k < n <= |slots|
    ensures |r| == |slots|
    ensures r[..n - 1] == slots[..n][..k] + slots[..n][k + 1..]
    ensures r[n - 1..] == slots[n - 1..]
  {
    var r := slots[..k] + slots[k + 1..n] + [slots[n - 1]] + slots[n..];
    assert r[..n - 1] == slots[..n][..k] + slots[..n][k + 1..];
    assert r[n - 1..] == [slots[n - 1]] + slots[n..];
    r
  }

  /** A name longer than a slot can hold is stored cut short, so it never
      matches its own slot again: a second `addSensor` with it adds another slot. */
  lemma LongSensorNameNeverMatches(name: CString)
    requires |name| > MAX_SENSOR_NAME_LENGTH - 1
    ensures CopyBounded(name, MAX_SENSOR_NAME_LENGTH) != name
  {
    assert |CopyBounded(name, MAX_SENSOR_NAME_LENGTH)| < |name|;
  }

  class QueueSensorData {
    var sensors: array<Sensor>
    var sensorCount: int

    ghost predicate Valid()
      reads this
    {
      sensors.Length == MAX_SENSORS && 0 <= sensorCount <= MAX_SENSORS
    }

    constructor ()
      ensures Valid() && fresh(sensors)
      ensures sensorCount == 0
      ensures forall i :: 0 <= i < sensors.Length ==> sensors[i] == Sensor("", 0.0, 0)
    {
      sensors := new Sensor[MAX_SENSORS](_ => Sensor("", 0.0, 0));
      sensorCount := 0;
    }

    /** The slots in use. */
    ghost function InUse(): seq<Sensor>
      reads this, sensors
      requires Valid()
    {
      sensors[..sensorCount]
    }

    /** `addSensor`: fails when the table is full or the name is null, even if
        the name is present; a present name has its reading overwritten in
        place; a new name takes the next free slot, cut to 31 characters. */
    method AddSensor(name: Option<CString>, value: real, timestamp: int) returns (ok: bool)
      requires Valid()
      modifies sensors
      modifies this
      ensures Valid() && sensors == old(sensors)
      ensures ok <==> old(sensorCount) < MAX_SENSORS && name.Some?
      ensures !ok ==> sensorCount == old(sensorCount) && sensors[..] == old(sensors[..])
      ensures ok ==>
                var k := FirstNamed(old(sensors[..sensorCount]), name.value);
                if k < old(sensorCount) then
                  && sensorCount == old(sensorCount)
                  && sensors[..] == old(sensors[..])[k := Sensor(old(sensors[k]).name, value, timestamp)]
                else
                  && sensorCount == old(sensorCount) + 1
                  && sensors[..] == old(sensors[..])[old(sensorCount) :=
                       Sensor(CopyBounded(name.value, MAX_SENSOR_NAME_LENGTH), value, timestamp)]
    {
      if sensorCount >= MAX_SENSORS || name.None? {
        return false;
      }
      ghost var k := FirstNamed(sensors[..sensorCount], name.value);
      var i := 0;
      while i < sensorCount
        invariant 0 <= i <= sensorCount && i <= k
        invariant sensors[..] == old(sensors[..])
      {
        if sensors[i].name == name.value {
          sensors[i] := sensors[i].(value := value, timestamp := timestamp);
          return true;
        }
        i := i + 1;
      }
      sensors[sensorCount] := Sensor(CopyBounded(name.value, MAX_SENSOR_NAME_LENGTH), value, timestamp);
      sensorCount := sensorCount + 1;
      return true;
    }

    /** `getSensorValue`: the reading of the first slot with the name, 0 when
        there is none or the name is null. */
    method GetSensorValue(name: Option<CString>) returns (v: real)
      requires Valid()
      ensures name.None? ==> v == 0.0
      ensures name.Some? ==>
                var k := FirstNamed(sensors[..sensorCount], name.value);
                v == if k < sensorCount then sensors[k].value else 0.0
    {
      if name.None? {
        return 0.0;
      }
      var i := 0;
      while i < sensorCount
        invariant 0 <= i <= sensorCount
        invariant forall j :: 0 <= j < i ==> sensors[j].name != name.value
      {
        if sensors[i].name == name.value {
          assert sensors[..sensorCount][i] == sensors[i];
          assert FirstNamed(sensors[..sensorCount], name.value) == i;
          return sensors[i].value;
        }
        i := i + 1;
      }
      return 0.0;
    }

    /** `removeSensor`: deletes the first slot with the name by shifting the
        later slots down one place, order kept; the old last slot's contents
        stay behind, past the count.  A null or absent name changes nothing. */
    method RemoveSensor(name: Option<CString>) returns (ok: bool)
      requires Valid()
      modifies sensors
      modifies this
      ensures Valid() && sensors == old(sensors)
      ensures name.None? ==> !ok
      ensures name.Some? ==> (ok <==> FirstNamed(old(sensors[..sensorCount]), name.value) < old(sensorCount))
      ensures !ok ==> sensorCount == old(sensorCount) && sensors[..] == old(sensors[..])
      ensures ok ==>
                && sensorCount == old(sensorCount) - 1
                && sensors[..] == ShiftedOut(old(sensors[..]), FirstNamed(old(InUse()), name.value), old(sensorCount))
    {
      if name.None? {
        return false;
      }
      var i := 0;
      while i < sensorCount
        invariant 0 <= i <= sensorCount
        invariant forall j :: 0 <= j < i ==> sensors[j].name != name.value
        invariant sensors[..] == old(sensors[..])
      {
        if sensors[i].name == name.value {
          assert FirstNamed(sensors[..sensorCount], name.value) == i by {
            assert sensors[..sensorCount][i] == sensors[i];
          }
          ShiftDown(i);
          sensorCount := sensorCount - 1;
          return true;
        }
        i := i + 1;
      }
      assert FirstNamed(sensors[..sensorCount], name.value) == sensorCount;
      return false;
    }

    /** The shift loop of `removeSensor`: slots `k + 1 .. sensorCount - 1` move
        down one place. */
    method ShiftDown(k: int)
      requires Valid() && 0 <= k < sensorCount
      modifies sensors
      ensures sensors[..] == ShiftedOut(old(sensors[..]), k, sensorCount)
    {
      var j := k;
      while j < sensorCount - 1
        invariant k <= j <= sensorCount - 1
        invariant forall m :: 0 <= m < k ==> sensors[m] == old(sensors[m])
        invariant forall m :: k <= m < j ==> sensors[m] == old(sensors[m + 1])
        invariant forall m :: j <= m < sensors.Length ==> sensors[m] == old(sensors[m])
      {
        sensors[j] := sensors[j + 1];
        j := j + 1;
      }
      assert sensors[..] == old(sensors[..k]) + old(sensors[k + 1..sensorCount]) + [old(sensors[sensorCount - 1])] +
                            old(sensors[sensorCount..]);
    }

    /** `clear`: forgets every slot; the contents stay behind, past the count. */
    method Clear()
      requires Valid()
      modifies this
      ensures Valid() && sensorCount == 0 && sensors == old(sensors)
    {
      sensorCount := 0;
    }
  }

  /** One line of a queue record. */
  datatype QueueLineData = QueueLineData(lineNumber: int, peopleCount: int, waitTimeSeconds: int, isRecommended: bool)

  const MAX_QUEUE_NAME_LENGTH: nat := 64
  const MAX_LINES: nat := 10

  /** Sum of the counts of the given lines. */
  function SumCounts(lines: seq<QueueLineData>): int
  {
    if lines == [] then 0 else SumCounts(lines[..|lines| - 1]) + lines[|lines| - 1].peopleCount
  }

  /** Two snapshots of a line that differ at most in the recommendation flag. */
  predicate SameUpToFlag(a: QueueLineData, b: QueueLineData)
  {
    a.lineNumber == b.lineNumber && a.peopleCount == b.peopleCount && a.waitTimeSeconds == b.waitTimeSeconds
  }

  /** The sum depends on the counts alone, not on the other fields. */
  lemma {:induction false} SumCountsOnlyCounts(a: seq<QueueLineData>, b: seq<QueueLineData>)
    requires |a| == |b|
    requires forall i :: 0 <= i < |a| ==> a[i].peopleCount == b[i].peopleCount
    ensures SumCounts(a) == SumCounts(b)
  {
    if a != [] {
      SumCountsOnlyCounts(a[..|a| - 1], b[..|b| - 1]);
    }
  }

  /** Line `r` (1-based) has the fewest people among `lines`, and every
      lower-numbered line has strictly more. */
  ghost predicate IsFewestLine(lines: seq<QueueLineData>, r: int)
  {
    && 1 <= r <= |lines|
    && (forall j :: 0 <= j < |lines| ==> lines[r - 1].peopleCount <= lines[j].peopleCount)
    && (forall j :: 0 <= j < r - 1 ==> lines[j].peopleCount > lines[r - 1].peopleCount)
  }

  /** At most one line is the fewest-people line. */
  lemma FewestLineUnique(lines: seq<QueueLineData>, a: int, b: int)
    requires IsFewestLine(lines, a) && IsFewestLine(lines, b)
    ensures a == b
  {
    assert lines[a - 1].peopleCount == lines[b - 1].peopleCount;
  }

  class QueueData {
    var id: CString
    var name: CString
    var totalPeople: int
    var maxCapacity: int
    var numberOfLines: int
    var recommendedLine: int
    var lastUpdated: int     // Unix milliseconds
    var lines: array<QueueLineData>
    var sensorData: QueueSensorData

    ghost predicate Valid()
      reads this
    {
      lines.Length == MAX_LINES
    }

    /** The counts that matter: those of the first `numberOfLines` lines. */
    ghost function ActiveLines(): seq<QueueLineData>
      reads this, lines
      requires Valid() && numberOfLines <= MAX_LINES
    {
      if numberOfLines <= 0 then [] else lines[..numberOfLines]
    }

    constructor ()
      ensures Valid() && fresh(lines) && fresh(sensorData) && sensorData.Valid()
      ensures id == "" && name == ""
      ensures totalPeople == 0 && maxCapacity == 0 && numberOfLines == 0
      ensures recommendedLine == -1 && lastUpdated == 0
      ensures forall i :: 0 <= i < lines.Length ==> lines[i] == QueueLineData(0, 0, 0, false)
    {
      id := "";
      name := "";
      totalPeople := 0;
      maxCapacity := 0;
      numberOfLines := 0;
      recommendedLine := -1;
      lastUpdated := 0;
      lines := new QueueLineData[MAX_LINES](_ => QueueLineData(0, 0, 0, false));
      sensorData := new QueueSensorData();
    }

    /** `setId`: keeps at most 63 characters; null changes nothing. */
    method SetId(queueId: Option<CString>)
      modifies this
      ensures id == if queueId.Some? then CopyBounded(queueId.value, MAX_QUEUE_NAME_LENGTH) else old(id)
      ensures name == old(name) && totalPeople == old(totalPeople) && maxCapacity == old(maxCapacity)
      ensures numberOfLines == old(numberOfLines) && recommendedLine == old(recommendedLine)
      ensures lastUpdated == old(lastUpdated) && lines == old(lines) && sensorData == old(sensorData)
    {
      if queueId.Some? {
        id := CopyBounded(queueId.value, MAX_QUEUE_NAME_LENGTH);
      }
    }

    /** `setName`: keeps at most 63 characters; null changes nothing. */
    method SetName(queueName: Option<CString>)
      modifies this
      ensures name == if queueName.Some? then CopyBounded(queueName.value, MAX_QUEUE_NAME_LENGTH) else old(name)
      ensures id == old(id) && totalPeople == old(totalPeople) && maxCapacity == old(maxCapacity)
      ensures numberOfLines == old(numberOfLines) && recommendedLine == old(recommendedLine)
      ensures lastUpdated == old(lastUpdated) && lines == old(lines) && sensorData == old(sensorData)
    {
      if queueName.Some? {
        name := CopyBounded(queueName.value, MAX_QUEUE_NAME_LENGTH);
      }
    }

    /** `updateTimestamp`: whole seconds of the wall clock, in milliseconds. */
    method UpdateTimestamp(nowSeconds: int)
      modifies this
      ensures lastUpdated == nowSeconds * 1000 && lastUpdated % 1000 == 0
      ensures id == old(id) && name == old(name) && totalPeople == old(totalPeople)
      ensures maxCapacity == old(maxCapacity) && numberOfLines == old(numberOfLines)
      ensures recommendedLine == old(recommendedLine) && lines == old(lines) && sensorData == old(sensorData)
    {
      lastUpdated := nowSeconds * 1000;
    }

    predicate IsLineNumberAccepted(lineNumber: int)
      reads this
    {
      1 <= lineNumber <= numberOfLines && lineNumber <= MAX_LINES
    }

    /** `getLineCount`: the count of an accepted line, -1 otherwise. */
    function GetLineCount(lineNumber: int): (count: int)
      reads this, lines
      requires Valid()
      ensures !IsLineNumberAccepted(lineNumber) ==> count == -1
      ensures IsLineNumberAccepted(lineNumber) ==> count == lines[lineNumber - 1].peopleCount
    {
      if !IsLineNumberAccepted(lineNumber) then -1 else lines[lineNumber - 1].peopleCount
    }

    /** `updateTotalPeople`: the total becomes the sum of the active counts. */
    method UpdateTotalPeople()
      requires Valid() && numberOfLines <= MAX_LINES
      modifies this
      ensures id == old(id) && name == old(name) && maxCapacity == old(maxCapacity)
      ensures numberOfLines == old(numberOfLines) && recommendedLine == old(recommendedLine)
      ensures lastUpdated == old(lastUpdated) && lines == old(lines) && sensorData == old(sensorData)
      ensures Valid() && totalPeople == SumCounts(ActiveLines())
    {
      var n := if numberOfLines < 0 then 0 else numberOfLines;
      var total := 0;
      var i := 0;
      while i < n
        invariant 0 <= i <= n
        invariant total == SumCounts(lines[..i])
      {
        assert lines[..i + 1][..i] == lines[..i];
        total := total + lines[i].peopleCount;
        i := i + 1;
      }
      totalPeople := total;
    }

    /** `calculateRecommendedLine`: -1 without lines; otherwise the
        lowest-numbered line with the fewest people, which becomes the only
        active line flagged as recommended.  A negative line count yields line
        1 with no flag touched. */
    method CalculateRecommendedLine()
      requires Valid() && numberOfLines <= MAX_LINES
      modifies this, lines
      ensures Valid() && lines == old(lines)
      ensures id == old(id) && name == old(name) && totalPeople == old(totalPeople)
      ensures maxCapacity == old(maxCapacity) && numberOfLines == old(numberOfLines)
      ensures lastUpdated == old(lastUpdated) && sensorData == old(sensorData)
      ensures numberOfLines == 0 ==> recommendedLine == -1 && lines[..] == old(lines[..])
      ensures numberOfLines < 0 ==> recommendedLine == 1 && lines[..] == old(lines[..])
      ensures numberOfLines > 0 ==>
                && IsFewestLine(old(lines[..numberOfLines]), recommendedLine)
                && forall i :: 0 <= i < lines.Length ==>
                     lines[i] == if i < numberOfLines then old(lines[i]).(isRecommended := i == recommendedLine - 1)
                                 else old(lines[i])
    {
      if numberOfLines == 0 {
        recommendedLine := -1;
        return;
      }
      var minPeople := lines[0].peopleCount;
      var bestLine := 1;

      var n := if numberOfLines < 0 then 0 else numberOfLines;
      var i := 0;
      while i < n
        invariant 0 <= i <= n && unchanged(this)
        invariant forall m :: 0 <= m < lines.Length ==>
                    lines[m] == if m < i then old(lines[m]).(isRecommended := false) else old(lines[m])
      {
        lines[i] := lines[i].(isRecommended := false);
        i := i + 1;
      }

      i := 1;
      while i < n
        invariant 1 <= i <= (if n < 1 then 1 else n) && unchanged(this)
        invariant 1 <= bestLine <= i && minPeople == lines[bestLine - 1].peopleCount
        invariant forall j :: 0 <= j < i ==> minPeople <= lines[j].peopleCount
        invariant forall j :: 0 <= j < bestLine - 1 ==> lines[j].peopleCount > minPeople
      {
        if lines[i].peopleCount < minPeople {
          minPeople := lines[i].peopleCount;
          bestLine := i + 1;
        }
        i := i + 1;
      }

      recommendedLine := bestLine;
      if bestLine > 0 && bestLine <= numberOfLines {
        lines[bestLine - 1] := lines[bestLine - 1].(isRecommended := true);
      }
    }

    /** The derived fields agree with the active counts: the total is their
        sum and exactly the fewest-people line is flagged. */
    ghost predicate Summarised()
      reads this, lines
      requires Valid() && 0 < numberOfLines <= MAX_LINES
    {
      && totalPeople == SumCounts(lines[..numberOfLines])
      && IsFewestLine(lines[..numberOfLines], recommendedLine)
      && forall i :: 0 <= i < numberOfLines ==> lines[i].isRecommended == (i == recommendedLine - 1)
    }

    /** The fields that the line-count setters never touch. */
    twostate predicate HeaderUnchanged()
      reads this
    {
      && id == old(id) && name == old(name) && maxCapacity == old(maxCapacity)
      && numberOfLines == old(numberOfLines) && lines == old(lines) && sensorData == old(sensorData)
    }

    /** The tail of `setLineCount`: recompute the total and the
        recommendation from the stored counts. */
    method Resummarise()
      requires Valid() && 0 < numberOfLines <= MAX_LINES
      modifies this, lines
      ensures Valid() && HeaderUnchanged() && lastUpdated == old(lastUpdated)
      ensures forall i :: 0 <= i < lines.Length ==> SameUpToFlag(lines[i], old(lines[i]))
      ensures forall i :: numberOfLines <= i < lines.Length ==> lines[i] == old(lines[i])
      ensures Summarised()
    {
      UpdateTotalPeople();
      ghost var stored := lines[..];
      CalculateRecommendedLine();
      SumCountsOnlyCounts(stored[..numberOfLines], lines[..numberOfLines]);
      assert IsFewestLine(lines[..numberOfLines], recommendedLine);
    }

    /** `setLineCount`: rejects a line outside 1..min(numberOfLines, 10);
        otherwise stores `max(0, count)` and the line's number, recomputes the
        total and the recommendation, and stamps the record. */
    method SetLineCount(lineNumber: int, count: int, nowSeconds: int) returns (ok: bool)
      requires Valid() && numberOfLines <= MAX_LINES
      modifies this, lines
      ensures Valid() && HeaderUnchanged()
      ensures ok <==> old(IsLineNumberAccepted(lineNumber))
      ensures !ok ==> unchanged(this) && unchanged(lines)
      ensures ok ==>
                && lines[lineNumber - 1].lineNumber == lineNumber
                && lines[lineNumber - 1].peopleCount == (if count < 0 then 0 else count)
                && lines[lineNumber - 1].waitTimeSeconds == old(lines[lineNumber - 1].waitTimeSeconds)
                && (forall i :: 0 <= i < lines.Length && i != lineNumber - 1 ==> SameUpToFlag(lines[i], old(lines[i])))
                && (forall i :: numberOfLines <= i < lines.Length ==> lines[i] == old(lines[i]))
                && Summarised()
                && lastUpdated == nowSeconds * 1000
    {
      if lineNumber < 1 || lineNumber > numberOfLines || lineNumber > MAX_LINES {
        return false;
      }
      var index := lineNumber - 1;
      lines[index] := lines[index].(lineNumber := lineNumber, peopleCount := if count < 0 then 0 else count);
      Resummarise();
      UpdateTimestamp(nowSeconds);
      return true;
    }

    /** `isValid`: a non-empty id and 1..10 lines. */
    predicate IsValid()
      reads this
    {
      id != "" && 0 < numberOfLines <= MAX_LINES
    }

    /** Lines 1..k hold their numbers and the clamped counts from `counts`. */
    ghost predicate StoredPrefix(counts: seq<int>, k: int)
      reads this, lines
      requires Valid()
    {
      forall m :: 0 <= m < k && m < |counts| && m < lines.Length ==>
        lines[m].lineNumber == m + 1 && lines[m].peopleCount == (if counts[m] < 0 then 0 else counts[m])
    }

    /** Lines from index `k` on agree with `orig` up to their flags. */
    ghost predicate AgreesFrom(orig: seq<QueueLineData>, k: int)
      reads this, lines
      requires Valid() && |orig| == lines.Length
    {
      forall m :: k <= m < lines.Length && 0 <= m ==> SameUpToFlag(lines[m], orig[m])
    }

    /** Lines past the active ones are exactly as in `orig`. */
    ghost predicate InactiveAsIn(orig: seq<QueueLineData>)
      reads this, lines
      requires Valid() && |orig| == lines.Length
    {
      forall m :: numberOfLines <= m < lines.Length && 0 <= m ==> lines[m] == orig[m]
    }

    /** One step of `queue_data_set_lines_from_array`: line i + 1 takes its count. */
    method StoreNext(counts: seq<int>, i: int, ghost orig: seq<QueueLineData>, nowSeconds: int)
      requires Valid() && numberOfLines <= MAX_LINES && 0 <= i < numberOfLines && i < |counts|
      requires |orig| == lines.Length && StoredPrefix(counts, i) && AgreesFrom(orig, i) && InactiveAsIn(orig)
      modifies this, lines
      ensures Valid() && HeaderUnchanged()
      ensures StoredPrefix(counts, i + 1) && AgreesFrom(orig, i + 1) && InactiveAsIn(orig)
      ensures Summarised() && lastUpdated == nowSeconds * 1000
    {
      var ok := SetLineCount(i + 1, counts[i], nowSeconds);
    }

    /** `queue_data_set_lines_from_array`: sets lines 1..min(arraySize,
        numberOfLines) from the array in order; a null array changes nothing. */
    method SetLinesFromArray(lineCounts: Option<seq<int>>, arraySize: int, nowSeconds: int)
      requires Valid() && numberOfLines <= MAX_LINES
      requires lineCounts.Some? ==> arraySize <= |lineCounts.value|
      modifies this, lines
      ensures Valid() && HeaderUnchanged()
      ensures lineCounts.None? ==> unchanged(this) && unchanged(lines)
      ensures lineCounts.Some? ==>
                var maxLines := if arraySize < numberOfLines then arraySize else numberOfLines;
                && (forall i :: 0 <= i < maxLines ==>
                      lines[i].lineNumber == i + 1 &&
                      lines[i].peopleCount == (if lineCounts.value[i] < 0 then 0 else lineCounts.value[i]))
                && (forall i :: maxLines <= i < lines.Length && 0 <= i ==> SameUpToFlag(lines[i], old(lines[i])))
                && (forall i :: numberOfLines <= i < lines.Length && 0 <= i ==> lines[i] == old(lines[i]))
                && (maxLines <= 0 ==> unchanged(this) && unchanged(lines))
                && (maxLines > 0 ==> Summarised() && lastUpdated == nowSeconds * 1000)
    {
      if lineCounts.None? {
        return;
      }
      var counts := lineCounts.value;
      var maxLines := if arraySize < numberOfLines then arraySize else numberOfLines;
      ghost var orig := lines[..];
      var i := 0;
      while i < maxLines
        invariant 0 <= i <= (if maxLines < 0 then 0 else maxLines)
        invariant Valid() && HeaderUnchanged()
        invariant StoredPrefix(counts, i) && AgreesFrom(orig, i) && InactiveAsIn(orig)
        invariant i == 0 ==> unchanged(this) && unchanged(lines)
        invariant i > 0 ==> Summarised() && lastUpdated == nowSeconds * 1000
      {
        StoreNext(counts, i, orig, nowSeconds);
        i := i + 1;
      }
    }
  }
}
