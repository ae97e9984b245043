/** The daily prayer tracker: five checkboxes for today, a log of day records, the weekly
    average and the current streak of perfect days. */
module NamajTracker {
  import opened Seqs
  import opened Rounding

  datatype Prayer = Fajr | Dhuhr | Asr | Maghrib | Isha

  datatype PrayerStatus = PrayerStatus(fajr: bool, dhuhr: bool, asr: bool, maghrib: bool, isha: bool)

  const NoPrayers: PrayerStatus := PrayerStatus(false, false, false, false, false)

  /** A day's entry. Dates are day numbers: larger is newer. */
  datatype DayRecord = DayRecord(date: int, prayers: PrayerStatus, completionRate: int)

  function Get(s: PrayerStatus, p: Prayer): bool
  {
    match p
    case Fajr => s.fajr
    case Dhuhr => s.dhuhr
    case Asr => s.asr
    case Maghrib => s.maghrib
    case Isha => s.isha
  }

  /** The status with prayer `p` flipped. */
  function Toggle(s: PrayerStatus, p: Prayer): (r: PrayerStatus)
    ensures Get(r, p) == !Get(s, p)
    ensures forall q :: q != p ==> Get(r, q) == Get(s, q)
  {
    match p
    case Fajr => s.(fajr := !s.fajr)
    case Dhuhr => s.(dhuhr := !s.dhuhr)
    case Asr => s.(asr := !s.asr)
    case Maghrib => s.(maghrib := !s.maghrib)
    case Isha => s.(isha := !s.isha)
  }

  /** Flipping the same prayer twice restores the status. */
  lemma ToggleTwice(s: PrayerStatus, p: Prayer)
    ensures Toggle(Toggle(s, p), p) == s
  {
  }

  function BoolToNat(b: bool): nat
  {
    if b then 1 else 0
  }

  /** `Object.values(status).filter(Boolean).length`. */
  function CompletedCount(s: PrayerStatus): nat
  {
    BoolToNat(s.fajr) + BoolToNat(s.dhuhr) + BoolToNat(s.asr) + BoolToNat(s.maghrib) + BoolToNat(s.isha)
  }

  /** `count / 5 * 100`: one of 0, 20, ..., 100; 100 exactly when all five are done. */
  function CompletionRate(s: PrayerStatus): (r: nat)
    ensures r % 20 == 0 && r <= 100
    ensures r == 20 * CompletedCount(s)
    ensures r == 100 <==> s.fajr && s.dhuhr && s.asr && s.maghrib && s.isha
    ensures r == 0 <==> s == NoPrayers
  {
    CompletedCount(s) * 20
  }

  /** A toggle moves today's rate by exactly one prayer's share. */
  lemma ToggleRate(s: PrayerStatus, p: Prayer)
    ensures CompletionRate(Toggle(s, p)) == CompletionRate(s) + (if Get(s, p) then -20 else 20)
  {
  }

  function IsNotOn(today: int): DayRecord -> bool
  {
    (r: DayRecord) => r.date != today
  }

  function IsOn(today: int): DayRecord -> bool
  {
    (r: DayRecord) => r.date == today
  }

  /** The records after saving `status` for `today`: earlier entries for today dropped, a new one appended. */
  function Upsert(records: seq<DayRecord>, today: int, status: PrayerStatus): seq<DayRecord>
  {
    Filter(records, IsNotOn(today)) + [DayRecord(today, status, CompletionRate(status))]
  }

  /** After the upsert there is exactly one record for today; it is the last one and carries the new
      status and rate; the other days keep their records in their original order. */
  lemma {:induction false} UpsertToday(records: seq<DayRecord>, today: int, status: PrayerStatus)
    ensures var u := Upsert(records, today, status);
      && |Filter(u, IsOn(today))| == 1
      && u[|u| - 1] == DayRecord(today, status, CompletionRate(status))
      && u[..|u| - 1] == Filter(records, IsNotOn(today))
      && IsSubsequence(u[..|u| - 1], records)
  {
    var u := Upsert(records, today, status);
    var kept := Filter(records, IsNotOn(today));
    FilterAppend(kept, [DayRecord(today, status, CompletionRate(status))], IsOn(today));
    NoneOn(kept, today);
    assert u[..|u| - 1] == kept;
    FilterIsSubsequence(records, IsNotOn(today));
  }

  lemma {:induction false} NoneOn(s: seq<DayRecord>, today: int)
    requires forall i :: 0 <= i < |s| ==> s[i].date != today
    ensures Filter(s, IsOn(today)) == []
  {
    if s != [] {
      NoneOn(s[1..], today);
    }
  }

  /** Each record's rate agrees with its prayers, as every record written by the tracker does. */
  ghost predicate RatesConsistent(records: seq<DayRecord>)
  {
    forall i :: 0 <= i < |records| ==> records[i].completionRate == CompletionRate(records[i].prayers)
  }

  lemma {:induction false} UpsertKeepsRates(records: seq<DayRecord>, today: int, status: PrayerStatus)
    requires RatesConsistent(records)
    ensures RatesConsistent(Upsert(records, today, status))
  {
    var kept := Filter(records, IsNotOn(today));
    assert forall i :: 0 <= i < |kept| ==> kept[i] in records;
  }

  /** `records.slice(-7)`. */
  function LastSeven(records: seq<DayRecord>): (w: seq<DayRecord>)
    ensures |w| == if |records| < 7 then |records| else 7
    ensures w == records[|records| - |w|..]
  {
    if |records| <= 7 then records else records[|records| - 7..]
  }

  function SumRates(records: seq<DayRecord>): int
  {
    if records == [] then 0 else SumRates(records[..|records| - 1]) + records[|records| - 1].completionRate
  }

  lemma {:induction false} SumRatesBounds(records: seq<DayRecord>)
    requires forall i :: 0 <= i < |records| ==> 0 <= records[i].completionRate <= 100
    ensures 0 <= SumRates(records) <= 100 * |records|
  {
    if records != [] {
      SumRatesBounds(records[..|records| - 1]);
    }
  }

  /** `getWeeklyCompletion`: 0 with no records, otherwise the rounded mean rate of the last seven
      records, which lies between 0 and 100 when the rates do. */
  function WeeklyCompletion(records: seq<DayRecord>): (r: int)
    ensures records == [] ==> r == 0
    ensures records != [] ==> var w := LastSeven(records);
      2 * |w| * r - |w| <= 2 * SumRates(w) < 2 * |w| * r + |w|
    ensures RatesConsistent(records) ==> 0 <= r <= 100
  {
    var w := LastSeven(records);
    if |w| == 0 then 0
    else
      WeeklyBounds(records);
      RoundDiv(SumRates(w), |w|)
  }

  /** Rates between 0 and 100 average to a value between 0 and 100. */
  lemma WeeklyBounds(records: seq<DayRecord>)
    requires records != []
    ensures RatesConsistent(records) ==>
      0 <= RoundDiv(SumRates(LastSeven(records)), |LastSeven(records)|) <= 100
  {
    var w := LastSeven(records);
    if RatesConsistent(records) {
      forall i | 0 <= i < |w| ensures 0 <= w[i].completionRate <= 100 {
        assert w[i] == records[|records| - |w| + i];
      }
      SumRatesBounds(w);
      RoundDivBounds(SumRates(w), |w|, 0, 100);
    }
  }

  /** Newest first: dates never increase along the sequence. */
  ghost predicate SortedNewestFirst(s: seq<DayRecord>)
  {
    forall i, j :: 0 <= i < j < |s| ==> s[i].date >= s[j].date
  }

  /** Places `x` in front of the first record that is not newer than it. */
  function Insert(x: DayRecord, t: seq<DayRecord>): (r: seq<DayRecord>)
    ensures multiset(r) == multiset(t) + multiset{x}
  {
    if t == [] || t[0].date <= x.date then [x] + t
    else
      assert t == [t[0]] + t[1..];
      [t[0]] + Insert(x, t[1..])
  }

  lemma {:induction false} InsertSorted(x: DayRecord, t: seq<DayRecord>)
    requires SortedNewestFirst(t)
    ensures SortedNewestFirst(Insert(x, t))
  {
    if t != [] && t[0].date > x.date {
      var rest := Insert(x, t[1..]);
      InsertSorted(x, t[1..]);
      forall k | 0 <= k < |rest| ensures rest[k].date <= t[0].date {
        assert rest[k] in multiset(rest);
        assert rest[k] == x || rest[k] in multiset(t[1..]);
      }
    }
  }

  /** `[...records].sort((a, b) => b.date - a.date)`: a stable sort, newest first. */
  function SortNewestFirst(s: seq<DayRecord>): (r: seq<DayRecord>)
    ensures multiset(r) == multiset(s) && |r| == |s|
    ensures SortedNewestFirst(r)
  {
    if s == [] then []
    else
      assert s == [s[0]] + s[1..];
      InsertSorted(s[0], SortNewestFirst(s[1..]));
      Insert(s[0], SortNewestFirst(s[1..]))
  }

  /** The sort is stable: the records of any one date keep their original order. */
  lemma {:induction false} SortStable(s: seq<DayRecord>, d: int)
    ensures Filter(SortNewestFirst(s), IsOn(d)) == Filter(s, IsOn(d))
  {
    if s != [] {
      SortStable(s[1..], d);
      InsertOnDate(s[0], SortNewestFirst(s[1..]), d);
    }
  }

  /** Inserting `x` puts it in front of every record of its own date. */
  lemma {:induction false} InsertOnDate(x: DayRecord, t: seq<DayRecord>, d: int)
    ensures Filter(Insert(x, t), IsOn(d)) == (if x.date == d then [x] else []) + Filter(t, IsOn(d))
  {
    if t != [] && t[0].date > x.date {
      InsertOnDate(x, t[1..], d);
      assert t == [t[0]] + t[1..];
    }
  }

  /** The length of the run of perfect days at the front of `s`. */
  function LeadingPerfect(s: seq<DayRecord>): (n: nat)
    ensures n <= |s|
    ensures forall i :: 0 <= i < n ==> s[i].completionRate == 100
    ensures n < |s| ==> s[n].completionRate != 100
  {
    if s == [] || s[0].completionRate != 100 then 0 else 1 + LeadingPerfect(s[1..])
  }

  /** The streak of the records: never more than their number, 0 when the newest day is not perfect. */
  function Streak(records: seq<DayRecord>): nat
  {
    LeadingPerfect(SortNewestFirst(records))
  }

  lemma StreakBounds(records: seq<DayRecord>)
    ensures Streak(records) <= |records|
    ensures records != [] ==> var newest := SortNewestFirst(records)[0];
      (newest.completionRate != 100 <==> Streak(records) == 0)
  {
  }

  /** The loop of `calculateStreak` over the sorted records: count perfect days, stop at the first other. */
  method CountStreak(sorted: seq<DayRecord>) returns (streak: nat)
    ensures streak <= |sorted|
    ensures forall i :: 0 <= i < streak ==> sorted[i].completionRate == 100
    ensures streak < |sorted| ==> sorted[streak].completionRate != 100
    ensures streak == LeadingPerfect(sorted)
  {
    streak := 0;
    for i := 0 to |sorted|
      invariant streak == i
      invariant forall j :: 0 <= j < i ==> sorted[j].completionRate == 100
    {
      if sorted[i].completionRate == 100 {
        streak := streak + 1;
      } else {
        break;
      }
    }
    PerfectPrefix(sorted, streak);
  }

  /** A perfect prefix followed by an imperfect day (or the end) is exactly the leading run. */
  lemma {:induction false} PerfectPrefix(s: seq<DayRecord>, n: nat)
    requires n <= |s|
    requires forall i :: 0 <= i < n ==> s[i].completionRate == 100
    requires n < |s| ==> s[n].completionRate != 100
    ensures LeadingPerfect(s) == n
  {
    if n > 0 {
      PerfectPrefix(s[1..], n - 1);
    }
  }

  /** The tracker component: today's checkboxes, the record log (kept in memory) and the streak. */
  class Tracker {
    var todayPrayers: PrayerStatus
    var records: seq<DayRecord>
    var currentStreak: nat

    ghost predicate Valid()
      reads this
    {
      RatesConsistent(records) && currentStreak == Streak(records)
    }

    constructor ()
      ensures todayPrayers == NoPrayers && records == [] && currentStreak == 0 && Valid()
    {
      todayPrayers := NoPrayers;
      records := [];
      currentStreak := 0;
    }

    /** `togglePrayer`, followed by the effect that recomputes the streak whenever the records change. */
    method TogglePrayer(p: Prayer, today: int)
      requires Valid()
      modifies this
      ensures todayPrayers == Toggle(old(todayPrayers), p)
      ensures records == Upsert(old(records), today, todayPrayers)
      ensures Valid()
    {
      var newStatus := Toggle(todayPrayers, p);
      todayPrayers := newStatus;
      var updated := Filter(records, IsNotOn(today));
      updated := updated + [DayRecord(today, newStatus, CompletionRate(newStatus))];
      UpsertKeepsRates(records, today, newStatus);
      records := updated;
      CalculateStreak();
    }

    /** `calculateStreak`: sort newest first and count the leading perfect days. */
    method CalculateStreak()
      modifies this`currentStreak
      ensures currentStreak == Streak(records)
    {
      var sorted := SortNewestFirst(records);
      var streak := CountStreak(sorted);
      currentStreak := streak;
    }

    /** `getTodayCompletion`. */
    function TodayCompletion(): (r: nat)
      reads this
      ensures r == 20 * CompletedCount(todayPrayers) && r <= 100
    {
      CompletionRate(todayPrayers)
    }
  }
}
