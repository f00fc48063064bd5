/** The Cloud Functions of functions/src/index.ts: `computeRecommended` over a
    queue's `lines` object, and the transaction bodies of the callables
    `enqueueAuto` and `enqueueOnLine`.

    A JavaScript object is the sequence of its own properties in enumeration
    order, keys distinct.  Writing a missing key appends it here, while
    JavaScript enumerates keys that are array indices (every line number these
    functions write) first, in ascending order; nothing computed depends on
    the order (`RecommendationOrderFree`, `SumValuesOrderFree`).  A stored
    value is a number (taken to be an integer), a string or a boolean.  The
    database transaction is a value-to-value function; whether it committed
    is a parameter. */
module CloudFunctions {
  import opened Wrappers
  import opened NumericText

  const MAX_SAFE_INTEGER: int := 9007199254740991

  datatype LineValue = Num(n: int) | Text(s: string) | Bool(b: bool)

  datatype Entry = Entry(key: string, value: LineValue)

  ghost predicate DistinctKeys(lines: seq<Entry>)
  {
    forall i, j :: 0 <= i < j < |lines| ==> lines[i].key != lines[j].key
  }

  /** `lines[key]`, `None` being `undefined`. */
  function Get(lines: seq<Entry>, key: string): (v: Option<LineValue>)
    ensures v.None? <==> forall i :: 0 <= i < |lines| ==> lines[i].key != key
    ensures v.Some? ==> exists i :: 0 <= i < |lines| && lines[i] == Entry(key, v.value)
  {
    if lines == [] then None
    else if lines[0].key == key then Some(lines[0].value)
    else
      var rest := Get(lines[1..], key);
      assert rest.Some? ==> exists i :: 0 <= i < |lines[1..]| && lines[1..][i] == Entry(key, rest.value);
      rest
  }

  /** `lines[key] = v`: an existing property keeps its place, a new one goes last. */
  function Put(lines: seq<Entry>, key: string, v: LineValue): (r: seq<Entry>)
    ensures |r| == |lines| || |r| == |lines| + 1
  {
    if lines == [] then [Entry(key, v)]
    else if lines[0].key == key then [Entry(key, v)] + lines[1..]
    else [lines[0]] + Put(lines[1..], key, v)
  }

  /** Reading back a written key gives the value written, and no other key
      changes; distinct keys stay distinct. */
  lemma PutGet(lines: seq<Entry>, key: string, v: LineValue, other: string)
    requires DistinctKeys(lines)
    ensures Get(Put(lines, key, v), key) == Some(v)
    ensures other != key ==> Get(Put(lines, key, v), other) == Get(lines, other)
    ensures DistinctKeys(Put(lines, key, v))
  {
    PutGetSame(lines, key, v);
    if other != key {
      PutGetOther(lines, key, v, other);
    }
    PutKeepsDistinct(lines, key, v);
  }

  lemma {:induction false} PutGetSame(lines: seq<Entry>, key: string, v: LineValue)
    ensures Get(Put(lines, key, v), key) == Some(v)
  {
    if lines != [] && lines[0].key != key {
      PutGetSame(lines[1..], key, v);
      assert Put(lines, key, v)[1..] == Put(lines[1..], key, v);
    }
  }

  lemma {:induction false} PutGetOther(lines: seq<Entry>, key: string, v: LineValue, other: string)
    requires other != key
    ensures Get(Put(lines, key, v), other) == Get(lines, other)
  {
    if lines != [] && lines[0].key != key && lines[0].key != other {
      PutGetOther(lines[1..], key, v, other);
      assert Put(lines, key, v)[1..] == Put(lines[1..], key, v);
    } else if lines != [] && lines[0].key == key {
      assert Put(lines, key, v)[1..] == lines[1..];
    }
  }

  /** The keys after a write: the old ones and the written one. */
  lemma {:induction false} PutKeys(lines: seq<Entry>, key: string, v: LineValue, k: int)
    requires 0 <= k < |Put(lines, key, v)|
    ensures Put(lines, key, v)[k].key == key || exists i :: 0 <= i < |lines| && Put(lines, key, v)[k].key == lines[i].key
  {
    if lines != [] && lines[0].key != key && k > 0 {
      PutKeys(lines[1..], key, v, k - 1);
      assert Put(lines, key, v)[k] == Put(lines[1..], key, v)[k - 1];
      if Put(lines, key, v)[k].key != key {
        var i :| 0 <= i < |lines[1..]| && Put(lines, key, v)[k].key == lines[1..][i].key;
        assert lines[1..][i] == lines[i + 1];
      }
    } else if lines != [] && k > 0 {
      assert Put(lines, key, v)[k] == lines[k];
    }
  }

  lemma {:induction false} PutKeepsDistinct(lines: seq<Entry>, key: string, v: LineValue)
    requires DistinctKeys(lines)
    ensures DistinctKeys(Put(lines, key, v))
  {
    if lines != [] && lines[0].key != key {
      PutKeepsDistinct(lines[1..], key, v);
      var tail := Put(lines[1..], key, v);
      assert Put(lines, key, v) == [lines[0]] + tail;
      forall k | 0 <= k < |tail|
        ensures tail[k].key != lines[0].key
      {
        PutKeys(lines[1..], key, v, k);
        if tail[k].key != key {
          var i :| 0 <= i < |lines[1..]| && tail[k].key == lines[1..][i].key;
          assert lines[1..][i] == lines[i + 1];
        }
      }
    } else if lines != [] {
      assert Put(lines, key, v) == [Entry(key, v)] + lines[1..];
    }
  }

  /** The number JavaScript's `typeof v === 'number' ? v : parseInt(String(v)) || 0` gives. */
  function ValueOf(v: LineValue): int
  {
    match v
    case Num(n) => n
    case Text(s) => TextValue(s)
    case Bool(b) => TextValue(if b then "true" else "false")
  }

  /** `parseInt(s) || 0`: `NaN` counts as 0. */
  function TextValue(s: string): int
  {
    match ParseIntAnyRadix(s) case None => 0 case Some(x) => x
  }

  /** Sum of all values, whatever their keys. */
  function SumValues(lines: seq<Entry>): int
  {
    if lines == [] then 0 else SumValues(lines[..|lines| - 1]) + ValueOf(lines[|lines| - 1].value)
  }

  /** What the loop of `computeRecommended` reads from one property: the
      key's line number (`None` for `NaN`) and the count. */
  datatype Reading = Reading(line: Option<int>, count: int)

  function ReadingOf(e: Entry): Reading
  {
    Reading(ParseInt(e.key), ValueOf(e.value))
  }

  function Readings(lines: seq<Entry>): (rs: seq<Reading>)
    ensures |rs| == |lines| && forall i :: 0 <= i < |lines| ==> rs[i] == ReadingOf(lines[i])
  {
    seq(|lines|, i requires 0 <= i < |lines| => ReadingOf(lines[i]))
  }

  /** A property that can be recommended: its key reads as a line number and
      its count does not exceed the starting `bestCount`. */
  predicate Candidate(r: Reading)
  {
    r.line.Some? && r.count <= MAX_SAFE_INTEGER
  }

  /** (count, line) ordering: fewer people first, ties by the lower line. */
  predicate NoWorse(count: int, line: int, otherCount: int, otherLine: int)
  {
    count < otherCount || (count == otherCount && line <= otherLine)
  }

  datatype Best = Best(line: Option<int>, count: int)

  /** The step of the loop of `computeRecommended` for one property. */
  function Step(b: Best, r: Reading): Best
  {
    match r.line
    case None => b
    case Some(lineNum) =>
      if r.count < b.count || (r.count == b.count && (b.line.None? || lineNum < b.line.value)) then Best(r.line, r.count)
      else b
  }

  /** The loop of `computeRecommended` over the properties in order. */
  function Scan(rs: seq<Reading>): Best
  {
    if rs == [] then Best(None, MAX_SAFE_INTEGER) else Step(Scan(rs[..|rs| - 1]), rs[|rs| - 1])
  }

  /** `Scan` finds nothing exactly when no property is a candidate; what it
      finds is some candidate's (count, line), no worse than any other's. */
  lemma ScanIsLeast(rs: seq<Reading>)
    ensures Scan(rs).line.None? <==> forall j :: 0 <= j < |rs| ==> !Candidate(rs[j])
    ensures Scan(rs).line.Some? ==>
              exists i :: 0 <= i < |rs| && Candidate(rs[i]) && rs[i] == Reading(Scan(rs).line, Scan(rs).count)
    ensures Scan(rs).line.Some? ==>
              forall j :: 0 <= j < |rs| && Candidate(rs[j]) ==>
                NoWorse(Scan(rs).count, Scan(rs).line.value, rs[j].count, rs[j].line.value)
  {
    ScanFindsCandidate(rs);
    ScanWitness(rs);
    ScanNoWorse(rs);
  }

  lemma {:induction false} ScanFindsCandidate(rs: seq<Reading>)
    ensures Scan(rs).count <= MAX_SAFE_INTEGER
    ensures Scan(rs).line.None? ==> Scan(rs).count == MAX_SAFE_INTEGER
    ensures Scan(rs).line.None? <==> forall j :: 0 <= j < |rs| ==> !Candidate(rs[j])
  {
    if rs != [] {
      var prefix := rs[..|rs| - 1];
      ScanFindsCandidate(prefix);
      assert forall j :: 0 <= j < |prefix| ==> prefix[j] == rs[j];
    }
  }

  lemma {:induction false} ScanWitness(rs: seq<Reading>)
    ensures Scan(rs).line.Some? ==>
              exists i :: 0 <= i < |rs| && Candidate(rs[i]) && rs[i] == Reading(Scan(rs).line, Scan(rs).count)
  {
    if rs != [] {
      var prefix := rs[..|rs| - 1];
      ScanWitness(prefix);
      ScanFindsCandidate(prefix);
      var b := Scan(prefix);
      if Scan(rs) == b && b.line.Some? {
        var i :| 0 <= i < |prefix| && Candidate(prefix[i]) && prefix[i] == Reading(b.line, b.count);
        assert rs[i] == prefix[i];
      }
    }
  }

  lemma {:induction false} ScanNoWorse(rs: seq<Reading>)
    ensures Scan(rs).line.Some? ==>
              forall j :: 0 <= j < |rs| && Candidate(rs[j]) ==>
                NoWorse(Scan(rs).count, Scan(rs).line.value, rs[j].count, rs[j].line.value)
  {
    if rs != [] {
      var prefix := rs[..|rs| - 1];
      ScanNoWorse(prefix);
      ScanFindsCandidate(prefix);
      assert forall j :: 0 <= j < |prefix| ==> prefix[j] == rs[j];
    }
  }

  /** The recommendation does not depend on the order of the properties:
      two candidates that are each no worse than the other are the same line. */
  lemma NoWorseAntisymmetric(c1: int, l1: int, c2: int, l2: int)
    requires NoWorse(c1, l1, c2, l2) && NoWorse(c2, l2, c1, l1)
    ensures c1 == c2 && l1 == l2
  {
  }

  /** The scan of two readings sequences holding the same readings finds the same line. */
  lemma ScanOrderFree(rs: seq<Reading>, ts: seq<Reading>)
    requires forall k :: 0 <= k < |rs| ==> rs[k] in ts
    requires forall k :: 0 <= k < |ts| ==> ts[k] in rs
    ensures Scan(rs).line == Scan(ts).line
  {
    ScanIsLeast(rs);
    ScanIsLeast(ts);
    var p := Scan(rs);
    var q := Scan(ts);
    if p.line.Some? {
      var i :| 0 <= i < |rs| && Candidate(rs[i]) && rs[i] == Reading(p.line, p.count);
      assert rs[i] in ts;
      var j :| 0 <= j < |ts| && Candidate(ts[j]) && ts[j] == Reading(q.line, q.count);
      assert ts[j] in rs;
      NoWorseAntisymmetric(p.count, p.line.value, q.count, q.line.value);
    }
  }

  /** Reordering the properties keeps the recommendation. */
  lemma RecommendationOrderFree(a: seq<Entry>, b: seq<Entry>)
    requires multiset(a) == multiset(b)
    ensures Scan(Readings(a)).line == Scan(Readings(b)).line
  {
    var rs := Readings(a);
    var ts := Readings(b);
    forall k | 0 <= k < |rs|
      ensures rs[k] in ts
    {
      assert a[k] in multiset(b);
      var m :| 0 <= m < |b| && b[m] == a[k];
      assert ts[m] == rs[k];
    }
    forall k | 0 <= k < |ts|
      ensures ts[k] in rs
    {
      assert b[k] in multiset(a);
      var m :| 0 <= m < |a| && a[m] == b[k];
      assert rs[m] == ts[k];
    }
    ScanOrderFree(rs, ts);
  }

  /** Reordering the properties keeps the total. */
  lemma {:induction false} SumValuesOrderFree(a: seq<Entry>, b: seq<Entry>)
    requires multiset(a) == multiset(b)
    ensures SumValues(a) == SumValues(b)
    decreases |a|
  {
    if a == [] {
      assert |b| == |multiset(b)| == 0;
    } else {
      var j := MatchLast(a, b);
      SumValuesOrderFree(a[..|a| - 1], b[..j] + b[j + 1..]);
      SumValuesWithout(b[..j], b[j], b[j + 1..]);
      assert b == b[..j] + [b[j]] + b[j + 1..];
    }
  }

  /** Where the last property of `a` sits in a reordering `b`, and what is left of both. */
  lemma MatchLast(a: seq<Entry>, b: seq<Entry>) returns (j: int)
    requires a != [] && multiset(a) == multiset(b)
    ensures 0 <= j < |b| && b[j] == a[|a| - 1]
    ensures multiset(a[..|a| - 1]) == multiset(b[..j] + b[j + 1..])
  {
    var x := a[|a| - 1];
    assert a == a[..|a| - 1] + [x];
    assert x in multiset(b);
    j :| 0 <= j < |b| && b[j] == x;
    assert b == b[..j] + [x] + b[j + 1..];
    assert multiset(b[..j] + b[j + 1..]) == multiset(b) - multiset{x};
  }

  /** The total without one property is the total less that property's value. */
  lemma SumValuesWithout(front: seq<Entry>, x: Entry, back: seq<Entry>)
    ensures SumValues(front + [x] + back) == SumValues(front + back) + ValueOf(x.value)
  {
    var mid := [x] + back;
    assert front + [x] + back == front + mid;
    SumValuesFront(front, mid);
    SumValuesFront([x], back);
    SumValuesFront(front, back);
    assert SumValues([x]) == ValueOf(x.value) by {
      assert [x][..0] == [];
    }
  }

  /** The pair `computeRecommended` returns. */
  datatype Recommendation = Recommendation(recommendedLine: Option<int>, total: int)

  /** `computeRecommended`: the total of all values, and the line with the
      fewest people among the candidates, ties to the lower line; `None`
      (`null`) when there is no candidate. */
  method ComputeRecommended(lines: seq<Entry>) returns (r: Recommendation)
    ensures r.total == SumValues(lines)
    ensures r.recommendedLine == Scan(Readings(lines)).line
  {
    ghost var rs := Readings(lines);
    var best: Option<int> := None;
    var bestCount := MAX_SAFE_INTEGER;
    var total := 0;
    var i := 0;
    while i < |lines|
      invariant 0 <= i <= |lines|
      invariant Best(best, bestCount) == Scan(rs[..i])
      invariant total == SumValues(lines[..i])
    {
      assert lines[..i + 1][..i] == lines[..i];
      assert rs[..i + 1][..i] == rs[..i];
      var v := ValueOf(lines[i].value);
      total := total + v;
      var lineNum := ParseInt(lines[i].key);
      if lineNum.Some? {
        if v < bestCount || (v == bestCount && (best.None? || lineNum.value < best.value)) {
          best := lineNum;
          bestCount := v;
        }
      }
      i := i + 1;
    }
    assert lines[..i] == lines;
    assert rs[..i] == rs;
    return Recommendation(best, total);
  }

  /** What `computeRecommended` promises about a `lines` object: no
      recommendation exactly when no key reads as a line number with a count
      of at most `MAX_SAFE_INTEGER`; otherwise a property with such a key whose
      (count, line) is no worse than that of any other. */
  lemma RecommendationIsLeast(lines: seq<Entry>)
    ensures Scan(Readings(lines)).line.None? <==> forall j :: 0 <= j < |lines| ==> !Candidate(ReadingOf(lines[j]))
    ensures var b := Scan(Readings(lines));
            b.line.Some? ==>
              exists i :: 0 <= i < |lines| && Candidate(ReadingOf(lines[i])) && ReadingOf(lines[i]) == Reading(b.line, b.count)
    ensures var b := Scan(Readings(lines));
            b.line.Some? ==>
              forall j :: 0 <= j < |lines| && Candidate(ReadingOf(lines[j])) ==>
                NoWorse(b.count, b.line.value, ReadingOf(lines[j]).count, ReadingOf(lines[j]).line.value)
  {
    var rs := Readings(lines);
    ScanIsLeast(rs);
    var b := Scan(rs);
    if b.line.Some? {
      var i :| 0 <= i < |rs| && Candidate(rs[i]) && rs[i] == Reading(b.line, b.count);
      assert ReadingOf(lines[i]) == rs[i];
    }
  }

  /** `(lines[key] || 0) + 1`: a missing, zero, empty-text or `false` value
      becomes 1, a number grows by one, `true` counts as 1 and becomes 2, and
      any other text gets the digit `1` appended. */
  function Incremented(current: Option<LineValue>): (r: LineValue)
    ensures current.Some? && current.value.Num? ==> r == Num(current.value.n + 1)
    ensures current.None? ==> r == Num(1)
    ensures current.Some? && current.value.Bool? ==> r == Num(if current.value.b then 2 else 1)
  {
    match current
    case None => Num(1)
    case Some(Num(n)) => Num(n + 1)
    case Some(Text(s)) => if s == "" then Num(1) else Text(s + "1")
    case Some(Bool(b)) => if b then Num(2) else Num(1)
  }

  /** A boolean count is read by `computeRecommended` as 0 (`parseInt` of
      "true" or "false" is `NaN`), although `true` increments to 2. */
  lemma BoolCountsAsZero(b: bool)
    ensures ValueOf(Bool(b)) == 0
    ensures Incremented(Some(Bool(b))) == Num(if b then 2 else 1)
  {
    var s := if b then "true" else "false";
    TrimStartNoSpace(s);
    assert SignFree(s) == s && !HasHexPrefix(s);
    assert !IsDigit(s[0]);
  }

  /** A count stored as text is extended, not incremented: "5" becomes "51". */
  lemma TextIncrementAppends()
    ensures Incremented(Some(Text("5"))) == Text("51")
    ensures ValueOf(Incremented(Some(Text("5")))) == 51
  {
    assert TrimStart("51") == "51";
    assert SignFree("51") == "51";
    assert !HasHexPrefix("51");
    assert DigitPrefix("51") == "51" by {
      DigitPrefixOfDigits("51");
    }
    assert DigitsValue("51") == 51 by {
      assert "51"[..1] == "5";
      assert "5"[..0] == "";
    }
  }

  /** The body of the `enqueueAuto` transaction: a missing object is `{'1': 0}`;
      with no recommendation line 1 is set to 1, otherwise the recommended
      line's property is incremented. */
  function AutoTransaction(current: Option<seq<Entry>>): (r: seq<Entry>)
  {
    var lines := if current.Some? then current.value else [Entry("1", Num(0))];
    var recommended := Scan(Readings(lines)).line;
    if recommended.None? then Put(lines, "1", Num(1))
    else
      var key := IntToString(recommended.value);
      Put(lines, key, Incremented(Get(lines, key)))
  }

  /** The body of the `enqueueOnLine` transaction: a missing object is `{}`,
      and the line's property is incremented. */
  function OnLineTransaction(current: Option<seq<Entry>>, line: int): (r: seq<Entry>)
  {
    var lines := if current.Some? then current.value else [];
    var key := IntToString(line);
    Put(lines, key, Incremented(Get(lines, key)))
  }

  /** `enqueueAuto` touches exactly one property: line 1 when nothing can be
      recommended, else the text of the recommended line.  That property is
      incremented and every other property keeps its value. */
  lemma AutoTransactionTouchesOneLine(current: Option<seq<Entry>>, other: string)
    requires current.Some? ==> DistinctKeys(current.value)
    ensures var lines := if current.Some? then current.value else [Entry("1", Num(0))];
            var rec := Scan(Readings(lines)).line;
            var key := if rec.None? then "1" else IntToString(rec.value);
            && Get(AutoTransaction(current), key) == Some(if rec.None? then Num(1) else Incremented(Get(lines, key)))
            && (other != key ==> Get(AutoTransaction(current), other) == Get(lines, other))
            && DistinctKeys(AutoTransaction(current))
  {
    var lines := if current.Some? then current.value else [Entry("1", Num(0))];
    var rec := Scan(Readings(lines)).line;
    var key := if rec.None? then "1" else IntToString(rec.value);
    var v := if rec.None? then Num(1) else Incremented(Get(lines, key));
    PutGet(lines, key, v, other);
  }

  /** The property written under the recommended line's text is found again
      as that line: the recommendation names a key that reads back as it. */
  lemma RecommendedKeyReadsBack(lines: seq<Entry>)
    requires Scan(Readings(lines)).line.Some?
    ensures ParseInt(IntToString(Scan(Readings(lines)).line.value)) == Scan(Readings(lines)).line
  {
    ParseIntToString(Scan(Readings(lines)).line.value);
  }

  /** `enqueueOnLine` increments the given line's property and no other. */
  lemma OnLineTransactionTouchesOneLine(current: Option<seq<Entry>>, line: int, other: string)
    requires current.Some? ==> DistinctKeys(current.value)
    ensures var lines := if current.Some? then current.value else [];
            var key := IntToString(line);
            && Get(OnLineTransaction(current, line), key) == Some(Incremented(Get(lines, key)))
            && (other != key ==> Get(OnLineTransaction(current, line), other) == Get(lines, other))
            && DistinctKeys(OnLineTransaction(current, line))
  {
    var lines := if current.Some? then current.value else [];
    var key := IntToString(line);
    PutGet(lines, key, Incremented(Get(lines, key)), other);
  }

  /** The sum over the properties after a write: the old value's share is
      replaced by the new one's. */
  lemma {:induction false} SumValuesPut(lines: seq<Entry>, key: string, v: LineValue)
    requires DistinctKeys(lines)
    ensures Get(lines, key).None? ==> SumValues(Put(lines, key, v)) == SumValues(lines) + ValueOf(v)
    ensures Get(lines, key).Some? ==>
              SumValues(Put(lines, key, v)) == SumValues(lines) - ValueOf(Get(lines, key).value) + ValueOf(v)
  {
    if lines != [] {
      if lines[0].key == key {
        SumValuesFront([Entry(key, v)], lines[1..]);
        SumValuesFront([lines[0]], lines[1..]);
        assert [lines[0]] + lines[1..] == lines;
      } else {
        assert DistinctKeys(lines[1..]);
        SumValuesPut(lines[1..], key, v);
        SumValuesFront([lines[0]], Put(lines[1..], key, v));
        SumValuesFront([lines[0]], lines[1..]);
        assert [lines[0]] + lines[1..] == lines;
      }
    }
  }

  lemma {:induction false} SumValuesFront(a: seq<Entry>, b: seq<Entry>)
    ensures SumValues(a + b) == SumValues(a) + SumValues(b)
  {
    if b != [] {
      assert (a + b)[..|a + b| - 1] == a + b[..|b| - 1];
      SumValuesFront(a, b[..|b| - 1]);
    } else {
      assert a + b == a;
    }
  }

  /** With numeric counts only, `enqueueOnLine` adds exactly one person to the
      total `computeRecommended` reports. */
  lemma OnLineTransactionAddsOne(current: Option<seq<Entry>>, line: int)
    requires current.Some? ==> DistinctKeys(current.value)
    requires current.Some? ==> forall i :: 0 <= i < |current.value| ==> current.value[i].value.Num?
    ensures SumValues(OnLineTransaction(current, line)) == (if current.Some? then SumValues(current.value) else 0) + 1
  {
    var lines := if current.Some? then current.value else [];
    var key := IntToString(line);
    SumValuesPut(lines, key, Incremented(Get(lines, key)));
    if Get(lines, key).Some? {
      var i :| 0 <= i < |lines| && lines[i] == Entry(key, Get(lines, key).value);
    }
  }

  /** Outcome of a callable: an `HttpsError` or the returned object. */
  datatype CallResult =
    | InvalidArgument
    | Aborted
    | Done(recommendedLine: Option<int>, total: int, lines: seq<Entry>)

  /** The `enqueueAuto` callable: the transaction, then the recommendation
      recomputed from the committed object. */
  method EnqueueAuto(current: Option<seq<Entry>>, committed: bool) returns (r: CallResult)
    ensures !committed <==> r.Aborted?
    ensures !r.InvalidArgument?
    ensures r.Done? ==>
              && r.lines == AutoTransaction(current)
              && r.total == SumValues(r.lines)
              && r.recommendedLine == Scan(Readings(r.lines)).line
  {
    if !committed {
      return Aborted;
    }
    var lines := AutoTransaction(current);
    var rec := ComputeRecommended(lines);
    return Done(rec.recommendedLine, rec.total, lines);
  }

  /** The `enqueueOnLine` callable: a line argument that does not read as a
      positive integer is rejected before any transaction. */
  method EnqueueOnLine(lineArgument: string, current: Option<seq<Entry>>, committed: bool) returns (r: CallResult)
    ensures var line := ParseIntAnyRadix(lineArgument);
            r.InvalidArgument? <==> line.None? || line.value <= 0
    ensures var line := ParseIntAnyRadix(lineArgument);
            r.Aborted? <==> line.Some? && line.value > 0 && !committed
    ensures r.Done? ==>
              var line := ParseIntAnyRadix(lineArgument).value;
              && r.lines == OnLineTransaction(current, line)
              && r.total == SumValues(r.lines)
              && r.recommendedLine == Scan(Readings(r.lines)).line
  {
    var line := ParseIntAnyRadix(lineArgument);
    if line.None? || line.value <= 0 {
      return InvalidArgument;
    }
    if !committed {
      return Aborted;
    }
    var lines := OnLineTransaction(current, line.value);
    var rec := ComputeRecommended(lines);
    return Done(rec.recommendedLine, rec.total, lines);
  }
}
