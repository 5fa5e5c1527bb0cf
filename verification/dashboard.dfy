/**
 * The statistics the dashboard derives from the record list: the sobriety
 * streak, the drinking days and day grid of the displayed month, the
 * estimated tolerance with its message, and the most frequent companion.
 */
module Dashboard {
  import opened Optional
  import opened Calendar
  import opened Data
  import Text

  // ---------------------------------------------------------------------
  // Sobriety streak.

  /**
   * Whole days from the start of the latest record's day to the start of
   * today; 0 without a latest record or without a timestamp.
   */
  function Streak(latest: Option<DrinkRecord>, now: Moment): (n: int)
    ensures latest.None? || latest.value.timestamp.None? ==> n == 0
  {
    match latest
    case None => 0
    case Some(r) =>
      match r.timestamp
      case None => 0
      case Some(t) => DayNumber(now.date) - DayNumber(t.date)
  }

  /** The latest record as a moment in the past, if it has a timestamp. */
  predicate HasTimestamp(latest: Option<DrinkRecord>) {
    latest.Some? && latest.value.timestamp.Some?
  }

  /** `n` calendar days after the latest record the streak is exactly `n`, whatever the times of day. */
  lemma StreakCountsDays(r: DrinkRecord, now: Moment, n: nat)
    requires r.timestamp.Some? && now.date == AddDays(r.timestamp.value.date, n)
    ensures Streak(Some(r), now) == n
  {
    AddDaysCounts(r.timestamp.value.date, n);
  }

  /** The sign of the streak says whether the record's day is before, on or after today. */
  lemma StreakSign(r: DrinkRecord, now: Moment)
    requires r.timestamp.Some?
    ensures Streak(Some(r), now) > 0 <==> DateBefore(r.timestamp.value.date, now.date)
    ensures Streak(Some(r), now) == 0 <==> r.timestamp.value.date == now.date
    ensures Streak(Some(r), now) < 0 <==> DateBefore(now.date, r.timestamp.value.date)
  {
    var a, b := r.timestamp.value.date, now.date;
    if DateBefore(a, b) {
      DayNumberIsChronological(a, b);
    } else if DateBefore(b, a) {
      DayNumberIsChronological(b, a);
    } else {
      assert a == b;
    }
  }

  // ---------------------------------------------------------------------
  // Drinking days of the displayed month.

  /** Same calendar month (granularity `.month`). */
  predicate SameMonth(a: Date, b: Date) {
    a.year == b.year && a.month == b.month
  }

  /** Whether record `r` happened in the month of `shown`; no timestamp means now. */
  predicate InMonth(r: DrinkRecord, shown: Date, now: Moment) {
    SameMonth(TimeOf(r, now).date, shown)
  }

  /** The days of month on which some record of the displayed month happened. */
  function DrinkingDays(records: seq<DrinkRecord>, shown: Date, now: Moment): (days: set<int>)
    ensures forall d :: d in days <==>
              exists r :: r in records && InMonth(r, shown, now) && TimeOf(r, now).date.day == d
  {
    if |records| == 0 then {}
    else
      var r := records[|records| - 1];
      var init := records[..|records| - 1];
      assert records == init + [r];
      DrinkingDays(init, shown, now)
        + (if InMonth(r, shown, now) then {TimeOf(r, now).date.day} else {})
  }

  /** Every drinking day is a day of the displayed month. */
  lemma DrinkingDaysInRange(records: seq<DrinkRecord>, shown: Date, now: Moment, d: int)
    requires d in DrinkingDays(records, shown, now)
    ensures 1 <= d <= DaysInMonth(shown.year, shown.month)
  {
    var r :| r in records && InMonth(r, shown, now) && TimeOf(r, now).date.day == d;
  }

  /** A record outside the displayed month adds no drinking day. */
  lemma OtherMonthsIgnored(records: seq<DrinkRecord>, r: DrinkRecord, shown: Date, now: Moment)
    requires !InMonth(r, shown, now)
    ensures DrinkingDays(records + [r], shown, now) == DrinkingDays(records, shown, now)
  {
    assert (records + [r])[..|records|] == records;
  }

  // ---------------------------------------------------------------------
  // The month grid.

  function FirstOfMonth(d: Date): (f: Date)
    ensures SameMonth(f, d) && f.day == 1
  {
    CivilDate(d.year, d.month, 1)
  }

  /** Within a month, adding days only moves the day of month. */
  lemma {:induction false} AddDaysWithinMonth(d: Date, n: nat)
    requires d.day + n <= DaysInMonth(d.year, d.month)
    ensures AddDays(d, n) == CivilDate(d.year, d.month, d.day + n)
    decreases n
  {
    if n > 0 {
      AddDaysWithinMonth(NextDate(d), n - 1);
    }
  }

  /**
   * The month grid: one empty cell per weekday before the first of the
   * month (Sunday first), then the first plus 0, 1, ... days, one per day of
   * the month.
   */
  method CalendarGrid(shown: Date) returns (cells: seq<Option<Date>>)
    ensures var lead, n := Weekday(FirstOfMonth(shown)) - 1, DaysInMonth(shown.year, shown.month);
              && |cells| == lead + n
              && (forall i :: 0 <= i < lead ==> cells[i].None?)
              && (forall d :: 1 <= d <= n ==> cells[lead + d - 1] == Some(CivilDate(shown.year, shown.month, d)))
  {
    var first := FirstOfMonth(shown);
    var lead := Weekday(first) - 1;
    var n := DaysInMonth(shown.year, shown.month);
    cells := [];
    while |cells| < lead
      invariant |cells| <= lead
      invariant forall i :: 0 <= i < |cells| ==> cells[i].None?
    {
      cells := cells + [None];
    }
    var day := 1;
    while day <= n
      invariant 1 <= day <= n + 1
      invariant |cells| == lead + day - 1
      invariant forall i :: 0 <= i < lead ==> cells[i].None?
      invariant forall d :: 1 <= d < day ==> cells[lead + d - 1] == Some(CivilDate(shown.year, shown.month, d))
    {
      AddDaysWithinMonth(first, day - 1);
      cells := cells + [Some(AddDays(first, day - 1))];
      day := day + 1;
    }
  }

  /** Every date in the grid is a day of the displayed month. */
  lemma GridCellsInMonth(shown: Date, d: int)
    requires 1 <= d <= DaysInMonth(shown.year, shown.month)
    ensures SameMonth(CivilDate(shown.year, shown.month, d), shown)
    ensures AddDays(FirstOfMonth(shown), d - 1) == CivilDate(shown.year, shown.month, d)
  {
    AddDaysWithinMonth(FirstOfMonth(shown), d - 1);
  }

  // ---------------------------------------------------------------------
  // Month navigation.

  /**
   * The displayed month moved by `months` months: same time of day, the day of
   * month kept unless the target month is shorter.
   */
  function ChangeMonth(current: Moment, months: int): (r: Moment)
    ensures MonthIndex(r.date) == MonthIndex(current.date) + months
    ensures r.second == current.second
    ensures r.date.day == current.date.day || r.date.day == DaysInMonth(r.date.year, r.date.month)
    ensures r.date.day <= current.date.day
  {
    DateTime(AddMonths(current.date, months), current.second)
  }

  /** Paging forward and back returns to the displayed month. */
  lemma ChangeMonthRoundTrip(current: Moment, months: int)
    ensures SameMonth(ChangeMonth(ChangeMonth(current, months), -months).date, current.date)
  {
    AddMonthsRoundTrip(current.date, months);
  }

  // ---------------------------------------------------------------------
  // Tolerance estimate.

  /** Pure alcohol in one bottle of soju: 360 mL at 16%. */
  const SojuBottleAlcohol: real := 360.0 * 0.16

  /** The records with feeling `f`, in order. */
  function WithFeeling(records: seq<DrinkRecord>, f: Feeling): (r: seq<DrinkRecord>)
    ensures |r| <= |records|
    ensures forall x :: x in r <==> x in records && x.feeling == Some(f)
  {
    if |records| == 0 then []
    else
      assert records == [records[0]] + records[1..];
      (if records[0].feeling == Some(f) then [records[0]] else []) + WithFeeling(records[1..], f)
  }

  /** The records the estimate is based on: moderate ones, or else light ones. */
  function ToleranceBasis(records: seq<DrinkRecord>): (r: seq<DrinkRecord>)
    ensures |WithFeeling(records, Moderate)| > 0 ==> r == WithFeeling(records, Moderate)
    ensures |WithFeeling(records, Moderate)| == 0 ==> r == WithFeeling(records, Light)
  {
    var moderate := WithFeeling(records, Moderate);
    if |moderate| == 0 then WithFeeling(records, Light) else moderate
  }

  /** The basis is empty exactly when nothing was recorded as moderate or light. */
  lemma ToleranceBasisEmpty(records: seq<DrinkRecord>)
    ensures |ToleranceBasis(records)| == 0 <==>
              forall x :: x in records ==> x.feeling != Some(Moderate) && x.feeling != Some(Light)
  {
    if |ToleranceBasis(records)| > 0 {
      assert ToleranceBasis(records)[0] in ToleranceBasis(records);
    }
  }

  /**
   * A record is in the basis exactly when it is moderate, if any record is;
   * otherwise exactly when it is light.
   */
  lemma ToleranceBasisMembers(records: seq<DrinkRecord>)
    ensures var anyModerate := exists r :: r in records && r.feeling == Some(Moderate);
              forall x :: x in ToleranceBasis(records) <==>
                x in records && x.feeling == Some(if anyModerate then Moderate else Light)
  {
    var moderate := WithFeeling(records, Moderate);
    if |moderate| > 0 {
      assert moderate[0] in moderate;
    }
  }

  /** The pure alcohol of all `records` added up, in mL. */
  function TotalAlcohol(records: seq<DrinkRecord>): real {
    if |records| == 0 then 0.0 else PureAlcohol(records[0]) + TotalAlcohol(records[1..])
  }

  /** Records that hold no alcohol add up to nothing. */
  lemma {:induction false} TotalAlcoholOfNone(records: seq<DrinkRecord>)
    requires forall x :: x in records ==> PureAlcohol(x) == 0.0
    ensures TotalAlcohol(records) == 0.0
  {
    if |records| > 0 {
      assert forall x :: x in records[1..] ==> x in records;
      TotalAlcoholOfNone(records[1..]);
    }
  }

  /** The total of a concatenation is the sum of the totals. */
  lemma {:induction false} TotalAlcoholAppend(a: seq<DrinkRecord>, b: seq<DrinkRecord>)
    ensures TotalAlcohol(a + b) == TotalAlcohol(a) + TotalAlcohol(b)
  {
    if |a| > 0 {
      assert (a + b)[1..] == a[1..] + b;
      TotalAlcoholAppend(a[1..], b);
    } else {
      assert a + b == b;
    }
  }

  lemma {:induction false} TotalAlcoholNonNegative(records: seq<DrinkRecord>)
    requires forall x :: x in records ==> HasNonNegativeAmounts(x)
    ensures TotalAlcohol(records) >= 0.0
  {
    if |records| > 0 {
      PureAlcoholNonNegative(records[0]);
      assert forall x :: x in records[1..] ==> x in records;
      TotalAlcoholNonNegative(records[1..]);
    }
  }

  /**
   * The estimated capacity in soju bottles: the mean pure alcohol of the
   * basis records divided by one bottle's, or 0 without a basis.
   */
  function EstimatedSojuCapacity(records: seq<DrinkRecord>): (c: real)
    ensures |ToleranceBasis(records)| == 0 ==> c == 0.0
  {
    var basis := ToleranceBasis(records);
    if |basis| == 0 then 0.0
    else
      var average := TotalAlcohol(basis) / (|basis| as real);
      average / SojuBottleAlcohol
  }

  /**
   * The estimate is the mean: that many bottles for each basis record add up
   * to the basis's total pure alcohol.
   */
  lemma CapacityIsMean(records: seq<DrinkRecord>)
    ensures |ToleranceBasis(records)| > 0 ==>
              EstimatedSojuCapacity(records) * SojuBottleAlcohol * (|ToleranceBasis(records)| as real)
              == TotalAlcohol(ToleranceBasis(records))
  {
    var basis := ToleranceBasis(records);
    if |basis| > 0 {
      var c, t, n := EstimatedSojuCapacity(records), TotalAlcohol(basis), |basis| as real;
      assert c == t / n / SojuBottleAlcohol;
      MeanTimesCount(c, t, n, SojuBottleAlcohol);
    }
  }

  lemma MeanTimesCount(c: real, t: real, n: real, k: real)
    requires n > 0.0 && k > 0.0 && c == t / n / k
    ensures c * k * n == t
  {
    var average := t / n;
    assert average * n == t;
    assert c * k == average;
  }

  lemma QuotientNonNegative(a: real, b: real)
    requires a >= 0.0 && b > 0.0
    ensures a / b >= 0.0
  {
  }

  /** With non-negative amounts the estimate is never negative. */
  lemma CapacityNonNegative(records: seq<DrinkRecord>)
    requires forall x :: x in records ==> HasNonNegativeAmounts(x)
    ensures EstimatedSojuCapacity(records) >= 0.0
  {
    var basis := ToleranceBasis(records);
    assert forall x :: x in basis ==> x in records;
    TotalAlcoholNonNegative(basis);
    if |basis| > 0 {
      QuotientNonNegative(TotalAlcohol(basis), |basis| as real);
      QuotientNonNegative(TotalAlcohol(basis) / (|basis| as real), SojuBottleAlcohol);
    }
  }

  /** Two evenings at "moderate" on one and three bottles of soju: two bottles on average. */
  lemma CapacityExample(id1: Uuid, id2: Uuid, t: Moment)
    ensures var one := NewDrinkRecord(id1, t, Some(16.0), Some(1.0), Some(360.0), Some("병"), Some(57.6), feeling := Some(Moderate));
            var three := NewDrinkRecord(id2, t, Some(16.0), Some(3.0), Some(360.0), Some("병"), Some(57.6), feeling := Some(Moderate));
            EstimatedSojuCapacity([one, three]) == 2.0
  {
    var one := NewDrinkRecord(id1, t, Some(16.0), Some(1.0), Some(360.0), Some("병"), Some(57.6), feeling := Some(Moderate));
    var three := NewDrinkRecord(id2, t, Some(16.0), Some(3.0), Some(360.0), Some("병"), Some(57.6), feeling := Some(Moderate));
    var rs := [one, three];
    assert rs[1..] == [three] && rs[1..][1..] == [];
    assert WithFeeling(rs, Moderate) == rs;
    assert PureAlcohol(one) == 57.6 && PureAlcohol(three) == 172.8;
    assert TotalAlcohol([three]) == 172.8 + TotalAlcohol([]);
    assert TotalAlcohol(rs) == 57.6 + TotalAlcohol([three]);
  }

  // ---------------------------------------------------------------------
  // Tolerance message.

  datatype ToleranceBand = NeedMoreData | Casual | Average | Hearty

  /** The message band of an estimate: exactly 0, below 1, below 2, or more. */
  function Band(c: real): (b: ToleranceBand)
    ensures b == NeedMoreData <==> c == 0.0
    ensures b == Casual ==> c < 1.0
    ensures b == Average ==> 1.0 <= c < 2.0
    ensures b == Hearty ==> c >= 2.0
  {
    if c == 0.0 then NeedMoreData
    else if c < 1.0 then Casual
    else if c < 2.0 then Average
    else Hearty
  }

  function BandRank(b: ToleranceBand): int {
    match b
    case NeedMoreData => 0
    case Casual => 1
    case Average => 2
    case Hearty => 3
  }

  /** Over positive estimates, a larger estimate never lands in a lower band. */
  lemma BandIsMonotone(a: real, b: real)
    requires 0.0 < a <= b
    ensures BandRank(Band(a)) <= BandRank(Band(b))
  {
  }

  /** Every non-negative estimate falls into the band its thresholds name. */
  lemma BandCovers(c: real)
    requires c >= 0.0
    ensures c == 0.0 ==> Band(c) == NeedMoreData
    ensures 0.0 < c < 1.0 ==> Band(c) == Casual
    ensures 1.0 <= c < 2.0 ==> Band(c) == Average
    ensures 2.0 <= c ==> Band(c) == Hearty
  {
  }

  /** The dashboard's sentence for each band. */
  function Message(b: ToleranceBand): (m: string)
    ensures |m| > 0
  {
    match b
    case NeedMoreData => "기록을 더 쌓으면 분석해드릴게요!"
    case Casual => "술은 분위기로 즐기는 편이네요 🍹"
    case Average => "평균적인 주량을 가지고 계시네요 🙂"
    case Hearty => "상당한 애주가시군요! 간 건강 챙기세요 💪"
  }

  /** Different bands show different messages. */
  lemma MessagesDistinct(a: ToleranceBand, b: ToleranceBand)
    ensures Message(a) == Message(b) ==> a == b
  {
  }

  /**
   * The `message` property: the sentence of the estimate's band, asking for
   * more records exactly when the estimate is 0.
   */
  function ToleranceMessage(records: seq<DrinkRecord>): (m: string)
    ensures m == Message(NeedMoreData) <==> EstimatedSojuCapacity(records) == 0.0
    ensures |ToleranceBasis(records)| == 0 ==> m == Message(NeedMoreData)
  {
    var b := Band(EstimatedSojuCapacity(records));
    MessagesDistinct(b, NeedMoreData);
    Message(b)
  }

  /** What the tolerance card shows. */
  datatype Card =
    | EstimateShown(bottles: string, message: string)  // "%.1f" bottles, "병", and `message`
    | NotEnoughData(text: string)

  /** The fixed text asking for records made while "적당히 취함". */
  const NotEnoughDataText: string := "데이터가 부족합니다.\n'적당히 취함' 상태로 기록을 남겨보세요."

  /**
   * The card: the estimate and its sentence only for a positive estimate;
   * otherwise, a negative estimate included, the "not enough data" text.
   * So the band sentence asking for more records never appears on it.
   */
  function ToleranceCard(records: seq<DrinkRecord>): (c: Card)
    ensures c.NotEnoughData? <==> EstimatedSojuCapacity(records) <= 0.0
    ensures c.NotEnoughData? ==> c.text == NotEnoughDataText
    ensures c.EstimateShown? ==> c.message == ToleranceMessage(records) && c.message != Message(NeedMoreData)
  {
    var capacity := EstimatedSojuCapacity(records);
    if capacity > 0.0 then EstimateShown(Text.FormatOneDecimal(capacity), ToleranceMessage(records))
    else NotEnoughData(NotEnoughDataText)
  }

  /** The card's bottle count reads back as the estimate to one decimal. */
  lemma CardBottlesReadBack(records: seq<DrinkRecord>)
    requires EstimatedSojuCapacity(records) > 0.0
    ensures ToleranceCard(records).EstimateShown?
    ensures Text.ParseDecimal(ToleranceCard(records).bottles) == Some(Text.RoundedToTenths(EstimatedSojuCapacity(records)))
  {
    Text.ParseFormatOneDecimal(EstimatedSojuCapacity(records));
  }

  // ---------------------------------------------------------------------
  // Best drinking mate.

  /** How often `p` appears in the people lists of `records` (repeats count). */
  function Occurrences(records: seq<DrinkRecord>, p: Person): (n: nat)
    ensures n == 0 <==> forall r :: r in records ==> p !in PeopleOf(r)
  {
    if |records| == 0 then 0
    else
      var init, last := records[..|records| - 1], records[|records| - 1];
      assert records == init + [last];
      Occurrences(init, p) + multiset(PeopleOf(last))[p]
  }

  lemma {:induction false} OccursWhenListed(records: seq<DrinkRecord>, r: DrinkRecord, p: Person)
    requires r in records && p in PeopleOf(r)
    ensures Occurrences(records, p) > 0
  {
    var last := records[|records| - 1];
    if r != last {
      var init := records[..|records| - 1];
      assert records == init + [last];
      OccursWhenListed(init, r, p);
    }
  }

  lemma {:induction false} NoPeopleNoOccurrences(records: seq<DrinkRecord>, p: Person)
    requires forall r :: r in records ==> |PeopleOf(r)| == 0
    ensures Occurrences(records, p) == 0
  {
    if |records| > 0 {
      var init := records[..|records| - 1];
      assert forall r :: r in init ==> r in records;
      NoPeopleNoOccurrences(init, p);
      assert PeopleOf(records[|records| - 1]) == [];
    }
  }

  datatype Mate = Mate(person: Person, count: nat)

  /** The count a tally map holds for `q`; absent means 0. */
  function Lookup(counts: map<Person, nat>, q: Person): nat {
    if q in counts then counts[q] else 0
  }

  /** Adds one to the tally of each listed person (a person listed twice counts twice). */
  method Tally(counts: map<Person, nat>, people: seq<Person>) returns (r: map<Person, nat>)
    requires forall q :: q in counts ==> counts[q] > 0
    ensures forall q :: q in r ==> r[q] > 0
    ensures forall q :: Lookup(r, q) == Lookup(counts, q) + multiset(people)[q]
  {
    r := counts;
    var j := 0;
    while j < |people|
      invariant 0 <= j <= |people|
      invariant forall q :: q in r ==> r[q] > 0
      invariant forall q :: Lookup(r, q) == Lookup(counts, q) + multiset(people[..j])[q]
    {
      assert people[..j + 1] == people[..j] + [people[j]];
      r := r[people[j] := Lookup(r, people[j]) + 1];
      j := j + 1;
    }
    assert people[..j] == people;
  }

  /** The tally over all records: every person listed somewhere, with their count. */
  method CountOccurrences(records: seq<DrinkRecord>) returns (counts: map<Person, nat>)
    ensures forall q :: q in counts ==> counts[q] > 0
    ensures forall q :: Lookup(counts, q) == Occurrences(records, q)
  {
    counts := map[];
    var i := 0;
    while i < |records|
      invariant 0 <= i <= |records|
      invariant forall q :: q in counts ==> counts[q] > 0
      invariant forall q :: Lookup(counts, q) == Occurrences(records[..i], q)
    {
      assert records[..i + 1][..i] == records[..i];
      counts := Tally(counts, PeopleOf(records[i]));
      i := i + 1;
    }
    assert records[..i] == records;
  }

  /** A key with the largest count; which of several equal ones is unspecified. */
  method MaxCount(counts: map<Person, nat>) returns (best: Person)
    requires |counts| > 0
    ensures best in counts
    ensures forall q :: q in counts ==> counts[q] <= counts[best]
  {
    best :| best in counts;
    var todo := counts.Keys - {best};
    while todo != {}
      invariant best in counts && todo <= counts.Keys
      invariant forall q :: q in counts && q !in todo ==> counts[q] <= counts[best]
      decreases |todo|
    {
      var q :| q in todo;
      if counts[q] > counts[best] {
        best := q;
      }
      todo := todo - {q};
    }
  }

  /**
   * The person who appears most often across the records, with that count;
   * None when no record lists anybody.  Among equally frequent people any may
   * be chosen.
   */
  method BestMate(records: seq<DrinkRecord>) returns (mate: Option<Mate>)
    ensures mate.None? <==> forall r :: r in records ==> |PeopleOf(r)| == 0
    ensures mate.Some? ==> mate.value.count == Occurrences(records, mate.value.person) > 0
    ensures mate.Some? ==> forall q :: Occurrences(records, q) <= mate.value.count
  {
    var counts := CountOccurrences(records);
    if |counts| == 0 {
      forall r | r in records
        ensures |PeopleOf(r)| == 0
      {
        if |PeopleOf(r)| > 0 {
          OccursWhenListed(records, r, PeopleOf(r)[0]);
        }
      }
      return None;
    }
    var best := MaxCount(counts);
    assert Lookup(counts, best) == counts[best];
    mate := Some(Mate(best, counts[best]));
    if forall r :: r in records ==> |PeopleOf(r)| == 0 {
      NoPeopleNoOccurrences(records, best);
    }
  }
}
