/** The chart page's date-range filter over its day-by-day data points. */
module ChartDashboard {
  import opened Text
  import opened Seqs

  /** One point of the chart, its `time` written `DD-MM-YYYY`. */
  datatype ChartPoint = ChartPoint(time: string, value: int)

  const DEFAULT_START := "2025-01-01"
  const DEFAULT_END := "2025-01-31"

  /** The day fields of January 2025. */
  const DAYS: seq<string> := seq(31, i requires 0 <= i < 31 => TwoDigits(i + 1))

  /** The two-digit text of a day number from 1 to 99. */
  function TwoDigits(n: int): (dd: string)
    requires 1 <= n <= 99
    ensures |dd| == 2 && '0' <= dd[0] <= '9' && '0' <= dd[1] <= '9'
    ensures (dd[0] as int - '0' as int) * 10 + (dd[1] as int - '0' as int) == n
  {
    [('0' as int + n / 10) as char, ('0' as int + n % 10) as char]
  }

  /** The bundled values, one per day of January 2025. */
  const VALUES: seq<int> := [
    65, 68, 72, 70, 75, 78, 80, 82, 79, 85, 88, 90, 87, 92, 95, 93,
    90, 88, 85, 82, 80, 78, 75, 72, 70, 68, 65, 70, 75, 80, 85]

  /** The bundled points: the i-th day of January 2025 (`DD-01-2025`) with
      the i-th value. */
  const POINTS: seq<ChartPoint> :=
    seq(31, i requires 0 <= i < 31 => ChartPoint(DAYS[i] + "-01-2025", VALUES[i]))

  /** `time.split("-").reverse().join("-")` */
  function ConvertDate(time: string): string {
    Join(Reverse(Split(time, '-')), '-')
  }

  /** A `DD-MM-YYYY` date becomes `YYYY-MM-DD`. */
  lemma ConvertDayMonthYear(d: string, m: string, y: string)
    requires '-' !in d && '-' !in m && '-' !in y
    ensures ConvertDate(d + "-" + m + "-" + y) == y + "-" + m + "-" + d
  {
    var parts := [d, m, y];
    JoinThree(d, m, y);
    SplitJoin(parts, '-');
    var rev := Reverse(parts);
    assert rev == [y, m, d];
    JoinThree(y, m, d);
  }

  lemma JoinThree(a: string, b: string, c: string)
    ensures Join([a, b, c], '-') == a + "-" + b + "-" + c
  {
    assert [a, b, c][1..] == [b, c] && [b, c][1..] == [c];
    assert Join([c], '-') == c;
    assert Join([b, c], '-') == b + ['-'] + c;
    assert Join([a, b, c], '-') == a + ['-'] + (b + ['-'] + c);
  }

  /** Converting twice gives the text back, whatever its shape. */
  lemma ConvertDateTwice(time: string)
    ensures ConvertDate(ConvertDate(time)) == time
  {
    var parts := Split(time, '-');
    var rev := Reverse(parts);
    SplitJoin(rev, '-');
    assert Reverse(rev) == parts;
    JoinSplit(time, '-');
  }

  /** The test `startDate <= itemDate && itemDate <= endDate`. */
  predicate InRange(startDate: string, endDate: string, p: ChartPoint) {
    AtMost(startDate, ConvertDate(p.time)) && AtMost(ConvertDate(p.time), endDate)
  }

  /** `filteredData` */
  function FilteredData(data: seq<ChartPoint>, startDate: string, endDate: string): seq<ChartPoint> {
    Filter(data, (p: ChartPoint) => InRange(startDate, endDate, p))
  }

  /** The filter keeps, unchanged and as often as they occur, exactly the points
      whose converted date lies between the bounds, both included. */
  lemma FilteredDataExact(data: seq<ChartPoint>, startDate: string, endDate: string)
    ensures forall p :: p in FilteredData(data, startDate, endDate) <==>
      p in data && AtMost(startDate, ConvertDate(p.time)) && AtMost(ConvertDate(p.time), endDate)
    ensures forall p :: multiset(FilteredData(data, startDate, endDate))[p]
                        == if InRange(startDate, endDate, p) then multiset(data)[p] else 0
    ensures forall p :: p in data && ConvertDate(p.time) == startDate && AtMost(startDate, endDate) ==>
      p in FilteredData(data, startDate, endDate)
  {
    FilterExact(data, (p: ChartPoint) => InRange(startDate, endDate, p));
    forall p | p in data && ConvertDate(p.time) == startDate && AtMost(startDate, endDate)
      ensures InRange(startDate, endDate, p)
    {
      LessTrichotomy(startDate, startDate);
    }
  }

  /** A start after the end keeps nothing. */
  lemma ReversedRangeIsEmpty(data: seq<ChartPoint>, startDate: string, endDate: string)
    requires Less(endDate, startDate)
    ensures FilteredData(data, startDate, endDate) == []
  {
    forall i | 0 <= i < |data| ensures !InRange(startDate, endDate, data[i]) {
      var c := ConvertDate(data[i].time);
      if AtMost(startDate, c) && AtMost(c, endDate) {
        AtMostTransitive(startDate, c, endDate);
      }
    }
    FilterNone(data, (p: ChartPoint) => InRange(startDate, endDate, p));
  }

  /** Texts of two characters compare by their first character, then their second. */
  lemma LessTwo(a: string, b: string)
    requires |a| == 2 && |b| == 2
    ensures Less(a, b) <==> a[0] < b[0] || (a[0] == b[0] && a[1] < b[1])
  {
    var a', b' := a[1..], b[1..];
    assert a'[0] == a[1] && b'[0] == b[1] && a'[1..] == [] && b'[1..] == [];
    assert !Less(a'[1..], b'[1..]);
    assert Less(a', b') <==> a[1] < b[1];
  }

  /** A two-digit day field from "01" to "31" lies between those two texts. */
  lemma TwoDigitDay(dd: string)
    requires |dd| == 2 && '0' <= dd[0] <= '3' && '0' <= dd[1] <= '9'
    requires dd[0] == '0' ==> dd[1] != '0'
    requires dd[0] == '3' ==> dd[1] <= '1'
    ensures '-' !in dd
    ensures AtMost("01", dd) && AtMost(dd, "31")
  {
    LessTwo(dd, "01");
    LessTwo("31", dd);
  }

  /** Common prefixes do not change the order. */
  lemma {:induction false} LessAfterPrefix(p: string, a: string, b: string)
    ensures Less(p + a, p + b) <==> Less(a, b)
  {
    if p != [] {
      assert (p + a)[0] == p[0] && (p + b)[0] == p[0];
      assert (p + a)[1..] == p[1..] + a && (p + b)[1..] == p[1..] + b;
      LessAfterPrefix(p[1..], a, b);
    } else {
      assert p + a == a && p + b == b;
    }
  }

  lemma DayKept(dd: string)
    requires |dd| == 2 && '0' <= dd[0] <= '3' && '0' <= dd[1] <= '9'
    requires dd[0] == '0' ==> dd[1] != '0'
    requires dd[0] == '3' ==> dd[1] <= '1'
    ensures AtMost(DEFAULT_START, ConvertDate(dd + "-01-2025"))
    ensures AtMost(ConvertDate(dd + "-01-2025"), DEFAULT_END)
  {
    TwoDigitDay(dd);
    assert dd + "-01-2025" == dd + "-" + "01" + "-" + "2025";
    ConvertDayMonthYear(dd, "01", "2025");
    var prefix := "2025-01-";
    assert "2025" + "-" + "01" + "-" + dd == prefix + dd;
    assert DEFAULT_START == prefix + "01" && DEFAULT_END == prefix + "31";
    LessAfterPrefix(prefix, dd, "01");
    LessAfterPrefix(prefix, "31", dd);
  }

  /** With the default range every bundled point is kept. */
  lemma DefaultRangeKeepsAll()
    ensures FilteredData(POINTS, DEFAULT_START, DEFAULT_END) == POINTS
  {
    forall i | 0 <= i < |POINTS| ensures InRange(DEFAULT_START, DEFAULT_END, POINTS[i]) {
      DayKept(DAYS[i]);
    }
    FilterAll(POINTS, (p: ChartPoint) => InRange(DEFAULT_START, DEFAULT_END, p));
  }
}
