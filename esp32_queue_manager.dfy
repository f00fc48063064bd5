/** The count-only queue manager of the ESP32 firmware
    (ESP32/Queue/QueueManager.cpp): lines 1..N hold only a head count, and an
    ordered set of the lines, ordered by (count, line number), gives the line
    to fill next at its front.  A global capacity bounds the sum of the counts.

    The line nodes that the lookup map and the ordered set share are modelled
    by value: `counts` is the map from line number to count, and `queue` is
    the set of `(lineNumber, count)` entries, which every operation erases and
    re-inserts around a count change, as the source does. */
module Esp32QueueManager {

  datatype Line = Line(lineNumber: int, peopleCount: nat)

  /** The `LineComparator` order: by count, ties by line number. */
  predicate Precedes(a: Line, b: Line)
  {
    a.peopleCount < b.peopleCount || (a.peopleCount == b.peopleCount && a.lineNumber < b.lineNumber)
  }

  /** The entries an ordered set holds for a lookup map. */
  ghost function Entries(counts: map<int, nat>): set<Line>
  {
    set k | k in counts :: Line(k, counts[k])
  }

  lemma EntriesUpdate(counts: map<int, nat>, k: int, v: nat)
    requires k in counts
    ensures Entries(counts[k := v]) == Entries(counts) - {Line(k, counts[k])} + {Line(k, v)}
  {
    var updated := counts[k := v];
    forall e | e in Entries(updated)
      ensures e in Entries(counts) - {Line(k, counts[k])} + {Line(k, v)}
    {
      var j :| j in updated && e == Line(j, updated[j]);
      if j != k {
        assert Line(j, counts[j]) in Entries(counts);
      }
    }
    forall e | e in Entries(counts) - {Line(k, counts[k])} + {Line(k, v)}
      ensures e in Entries(updated)
    {
      if e == Line(k, v) {
        assert Line(k, updated[k]) in Entries(updated);
      } else {
        var j :| j in counts && e == Line(j, counts[j]);
        assert Line(j, updated[j]) in Entries(updated);
      }
    }
  }

  /** Lines 1..n are all known. */
  ghost predicate Covers(counts: map<int, nat>, n: nat)
  {
    forall i :: 1 <= i <= n ==> i in counts
  }

  /** Sum of the counts of lines 1..n. */
  function CountSum(counts: map<int, nat>, n: nat): nat
    requires Covers(counts, n)
  {
    if n == 0 then 0 else CountSum(counts, n - 1) + counts[n]
  }

  lemma {:induction false} CountSumUpdate(counts: map<int, nat>, n: nat, k: int, v: nat)
    requires Covers(counts, n) && 1 <= k <= n
    ensures CountSum(counts[k := v], n) == CountSum(counts, n) - counts[k] + v
  {
    if n != k {
      CountSumUpdate(counts, n - 1, k, v);
    } else {
      CountSumUnaffected(counts, n - 1, k, v);
    }
  }

  lemma {:induction false} CountSumUnaffected(counts: map<int, nat>, n: nat, k: int, v: nat)
    requires Covers(counts, n) && n < k
    ensures CountSum(counts[k := v], n) == CountSum(counts, n)
  {
    if n > 0 {
      CountSumUnaffected(counts, n - 1, k, v);
    }
  }

  lemma {:induction false} CountSumOfZeros(counts: map<int, nat>, n: nat)
    requires Covers(counts, n) && forall i :: 1 <= i <= n ==> counts[i] == 0
    ensures CountSum(counts, n) == 0
  {
    if n > 0 {
      CountSumOfZeros(counts, n - 1);
    }
  }

  /** The front of the ordered set, computed over lines 1..n. */
  function LeastLine(counts: map<int, nat>, n: nat): (r: int)
    requires n >= 1 && Covers(counts, n)
    ensures 1 <= r <= n
  {
    if n == 1 then 1
    else
      var best := LeastLine(counts, n - 1);
      if Precedes(Line(n, counts[n]), Line(best, counts[best])) then n else best
  }

  /** `LeastLine` precedes every other line of 1..n. */
  lemma {:induction false} LeastLineIsLeast(counts: map<int, nat>, n: nat)
    requires n >= 1 && Covers(counts, n)
    ensures var r := LeastLine(counts, n);
            forall i :: 1 <= i <= n && i != r ==> Precedes(Line(r, counts[r]), Line(i, counts[i]))
  {
    if n > 1 {
      LeastLineIsLeast(counts, n - 1);
    }
  }

  class QueueManager {
    var maxSize: nat             // 0 means no global capacity
    var numberOfLines: nat
    var totalPeople: nat
    var counts: map<int, nat>   // lineMap: line number -> count
    var queue: set<Line>        // the ordered set; its front is the least entry

    ghost predicate Valid()
      reads this
    {
      && (forall k :: k in counts <==> 1 <= k <= numberOfLines)
      && queue == Entries(counts)
      && totalPeople == CountSum(counts, numberOfLines)
    }

    constructor (maxSize: nat, numberOfLines: nat)
      ensures Valid()
      ensures this.maxSize == maxSize && this.numberOfLines == numberOfLines
      ensures totalPeople == 0
      ensures forall i :: 1 <= i <= numberOfLines ==> counts[i] == 0
    {
      var m: map<int, nat> := map[];
      var q: set<Line> := {};
      var i := 1;
      while i <= numberOfLines
        invariant 1 <= i <= numberOfLines + 1
        invariant forall j :: j in m <==> 1 <= j < i
        invariant forall j :: j in m ==> m[j] == 0
        invariant q == Entries(m)
      {
        assert i !in m;
        assert Entries(m[i := 0]) == Entries(m) + {Line(i, 0)} by {
          assert Line(i, m[i := 0][i]) in Entries(m[i := 0]);
          forall e | e in Entries(m)
            ensures e in Entries(m[i := 0])
          {
            var j :| j in m && e == Line(j, m[j]);
            assert Line(j, m[i := 0][j]) in Entries(m[i := 0]);
          }
        }
        m := m[i := 0];
        q := q + {Line(i, 0)};
        i := i + 1;
      }
      this.maxSize := maxSize;
      this.numberOfLines := numberOfLines;
      totalPeople := 0;
      counts := m;
      queue := q;
      CountSumOfZeros(m, numberOfLines);
    }

    function Size(): nat
      reads this
    {
      totalPeople
    }

    predicate IsEmpty()
      reads this
    {
      totalPeople == 0
    }

    /** `isFull`: only a non-zero capacity can be reached. */
    predicate IsFull()
      reads this
    {
      maxSize != 0 && totalPeople >= maxSize
    }

    function GetNumberOfLines(): nat
      reads this
    {
      numberOfLines
    }

    /** `getLineCount`: -1 for an unknown line. */
    function GetLineCount(lineNumber: int): (count: int)
      reads this
      requires Valid()
      ensures count == -1 <==> !(1 <= lineNumber <= numberOfLines)
      ensures 1 <= lineNumber <= numberOfLines ==> count == counts[lineNumber]
    {
      if lineNumber in counts then counts[lineNumber] else -1
    }

    /** `queue.begin()`: the entry that precedes every other.  It is the
        entry of `LeastLine`. */
    method Front() returns (head: Line)
      requires Valid() && numberOfLines >= 1
      ensures head in queue
      ensures forall e :: e in queue && e != head ==> Precedes(head, e)
      ensures head == Line(LeastLine(counts, numberOfLines), counts[LeastLine(counts, numberOfLines)])
    {
      var r := LeastLine(counts, numberOfLines);
      LeastLineIsLeast(counts, numberOfLines);
      assert Line(r, counts[r]) in Entries(counts);
      forall e | e in queue && e != Line(r, counts[r])
        ensures Precedes(Line(r, counts[r]), e)
      {
        var j :| j in counts && e == Line(j, counts[j]);
      }
      head :| head in queue && forall e :: e in queue && e != head ==> Precedes(head, e);
      assert head == Line(r, counts[r]) ||
             (Precedes(Line(r, counts[r]), head) && Precedes(head, Line(r, counts[r])));
    }

    /** `getNextLineNumber`: the line at the front, -1 without lines. */
    method GetNextLineNumber() returns (r: int)
      requires Valid()
      ensures numberOfLines == 0 ==> r == -1
      ensures numberOfLines >= 1 ==> r == LeastLine(counts, numberOfLines)
      ensures numberOfLines >= 1 ==>
                && 1 <= r <= numberOfLines
                && forall i :: 1 <= i <= numberOfLines ==>
                     counts[r] < counts[i] || (counts[r] == counts[i] && r <= i)
    {
      assert numberOfLines >= 1 ==> Line(1, counts[1]) in queue;
      if queue == {} {
        return -1;
      }
      assert numberOfLines >= 1 by {
        var e :| e in queue;
      }
      var head := Front();
      LeastLineIsLeast(counts, numberOfLines);
      return head.lineNumber;
    }

    /** Moves one line's entry to its new place in the ordered set. */
    method Recount(lineNumber: int, newCount: nat)
      requires Valid() && lineNumber in counts
      modifies this
      ensures Valid()
      ensures maxSize == old(maxSize) && numberOfLines == old(numberOfLines)
      ensures counts == old(counts)[lineNumber := newCount]
      ensures totalPeople == old(totalPeople) - old(counts[lineNumber]) + newCount
    {
      EntriesUpdate(counts, lineNumber, newCount);
      CountSumUpdate(counts, numberOfLines, lineNumber, newCount);
      var oldCount := counts[lineNumber];
      queue := queue - {Line(lineNumber, oldCount)};
      counts := counts[lineNumber := newCount];
      totalPeople := totalPeople - oldCount + newCount;
      queue := queue + {Line(lineNumber, newCount)};
    }

    /** `enqueue`: unless full or without lines, the front line gains one. */
    method Enqueue() returns (ok: bool)
      requires Valid()
      modifies this
      ensures Valid()
      ensures maxSize == old(maxSize) && numberOfLines == old(numberOfLines)
      ensures ok <==> !old(IsFull()) && numberOfLines >= 1
      ensures !ok ==> unchanged(this)
      ensures ok ==> var l := LeastLine(old(counts), numberOfLines);
                     && counts == old(counts)[l := old(counts)[l] + 1]
                     && totalPeople == old(totalPeople) + 1
    {
      if IsFull() {
        return false;
      }
      assert numberOfLines >= 1 ==> Line(1, counts[1]) in queue;
      if queue == {} {
        return false;
      }
      assert numberOfLines >= 1 by {
        var e :| e in queue;
      }
      var head := Front();
      Recount(head.lineNumber, head.peopleCount + 1);
      return true;
    }

    /** `dequeue`: an unknown line or an empty one fails; otherwise that line
        loses one. */
    method Dequeue(lineNumber: int) returns (ok: bool)
      requires Valid()
      modifies this
      ensures Valid()
      ensures maxSize == old(maxSize) && numberOfLines == old(numberOfLines)
      ensures ok <==> 1 <= lineNumber <= numberOfLines && old(counts[lineNumber]) != 0
      ensures !ok ==> unchanged(this)
      ensures ok ==> && counts == old(counts)[lineNumber := old(counts[lineNumber]) - 1]
                     && totalPeople == old(totalPeople) - 1
    {
      if lineNumber !in counts || counts[lineNumber] == 0 {
        return false;
      }
      Recount(lineNumber, counts[lineNumber] - 1);
      return true;
    }

    /** `enqueueOnLine`: fails when full or on an unknown line; otherwise only
        that line gains one. */
    method EnqueueOnLine(lineNumber: int) returns (ok: bool)
      requires Valid()
      modifies this
      ensures Valid()
      ensures maxSize == old(maxSize) && numberOfLines == old(numberOfLines)
      ensures ok <==> !old(IsFull()) && 1 <= lineNumber <= numberOfLines
      ensures !ok ==> unchanged(this)
      ensures ok ==> && counts == old(counts)[lineNumber := old(counts[lineNumber]) + 1]
                     && totalPeople == old(totalPeople) + 1
    {
      if IsFull() {
        return false;
      }
      if lineNumber !in counts {
        return false;
      }
      Recount(lineNumber, counts[lineNumber] + 1);
      return true;
    }

    /** `setLineCount`: ignores an unknown line; otherwise stores
        `max(0, count)` and moves the total by the difference. */
    method SetLineCount(lineNumber: int, count: int)
      requires Valid()
      modifies this
      ensures Valid()
      ensures maxSize == old(maxSize) && numberOfLines == old(numberOfLines)
      ensures !(1 <= lineNumber <= numberOfLines) ==> unchanged(this)
      ensures 1 <= lineNumber <= numberOfLines ==>
                var stored := if count < 0 then 0 else count;
                && counts == old(counts)[lineNumber := stored]
                && totalPeople == old(totalPeople) - old(counts[lineNumber]) + stored
    {
      if lineNumber !in counts {
        return;
      }
      Recount(lineNumber, if count < 0 then 0 else count);
    }

    /** `reset`: every line drops to 0. */
    method Reset()
      requires Valid()
      modifies this
      ensures Valid()
      ensures maxSize == old(maxSize) && numberOfLines == old(numberOfLines)
      ensures counts.Keys == old(counts).Keys && forall k :: k in counts ==> counts[k] == 0
      ensures totalPeople == 0
    {
      var i := 1;
      while i <= numberOfLines
        invariant 1 <= i <= numberOfLines + 1
        invariant Valid()
        invariant maxSize == old(maxSize) && numberOfLines == old(numberOfLines)
        invariant counts.Keys == old(counts).Keys
        invariant forall k :: 1 <= k < i ==> counts[k] == 0
      {
        Recount(i, 0);
        i := i + 1;
      }
      CountSumOfZeros(counts, numberOfLines);
      totalPeople := 0;
    }
  }

  /** The set front and the line `enqueue` fills are the fewest-people line,
      ties going to the lowest number, and no other line is. */
  lemma LeastLineUnique(counts: map<int, nat>, n: nat, r: int)
    requires n >= 1 && Covers(counts, n) && 1 <= r <= n
    requires forall i :: 1 <= i <= n && i != r ==> Precedes(Line(r, counts[r]), Line(i, counts[i]))
    ensures r == LeastLine(counts, n)
  {
    LeastLineIsLeast(counts, n);
    var l := LeastLine(counts, n);
    assert r == l || (Precedes(Line(r, counts[r]), Line(l, counts[l])) && Precedes(Line(l, counts[l]), Line(r, counts[r])));
  }
}
