/** The task history page: search and category filter over completed tasks, labels, and the
    time-spent summary. */
module TaskHistory {
  import opened Wrappers
  import opened Text
  import opened Seqs

  /** A completed task; `timeSpent` is in minutes, `completedAt` a timestamp. */
  datatype CompletedTask = CompletedTask(id: string, title: string, category: string,
                                         completedAt: int, timeSpent: Option<nat>, notes: Option<string>)

  /** The search box and category filter together. */
  function Matches(searchTerm: string, filterCategory: string): CompletedTask -> bool
  {
    (t: CompletedTask) =>
      Contains(Lower(t.title), Lower(searchTerm)) && (filterCategory == "all" || t.category == filterCategory)
  }

  /** `filteredTasks`. */
  function FilteredTasks(tasks: seq<CompletedTask>, searchTerm: string, filterCategory: string): seq<CompletedTask>
  {
    Filter(tasks, Matches(searchTerm, filterCategory))
  }

  /** The filter keeps a task exactly as often as it occurs when its lower-cased title includes the
      lower-cased term and the category filter is "all" or its category, and keeps the order. */
  lemma FilteredTasksSpec(tasks: seq<CompletedTask>, searchTerm: string, filterCategory: string, t: CompletedTask)
    ensures IsSubsequence(FilteredTasks(tasks, searchTerm, filterCategory), tasks)
    ensures multiset(FilteredTasks(tasks, searchTerm, filterCategory))[t] ==
      if Contains(Lower(t.title), Lower(searchTerm)) && (filterCategory == "all" || t.category == filterCategory)
      then multiset(tasks)[t] else 0
  {
    FilterIsSubsequence(tasks, Matches(searchTerm, filterCategory));
    FilterCount(tasks, Matches(searchTerm, filterCategory), t);
  }

  /** With an empty search and the "all" filter every task is shown. */
  lemma {:induction false} NoFilterKeepsAll(tasks: seq<CompletedTask>)
    ensures FilteredTasks(tasks, "", "all") == tasks
  {
    if tasks != [] {
      ContainsEmpty(Lower(tasks[0].title));
      assert Lower("") == "";
      NoFilterKeepsAll(tasks[1..]);
      assert tasks == [tasks[0]] + tasks[1..];
    }
  }

  /** `getCategoryLabel`: the four known categories get their labels, anything else is shown as is. */
  function CategoryLabel(category: string): (r: string)
    ensures category == "urgent-important" ==> r == "Urgent & Important"
    ensures category == "important" ==> r == "Important"
    ensures category == "urgent" ==> r == "Urgent"
    ensures category == "neither" ==> r == "Neither"
    ensures category !in {"urgent-important", "important", "urgent", "neither"} ==> r == category
  {
    match category
    case "urgent-important" => "Urgent & Important"
    case "important" => "Important"
    case "urgent" => "Urgent"
    case "neither" => "Neither"
    case _ => category
  }

  const Gray: string := "bg-gray-100 text-gray-800"

  /** `getCategoryColor`: red, yellow and blue for the first three categories, gray otherwise. */
  function CategoryColor(category: string): (r: string)
    ensures category == "urgent-important" ==> r == "bg-red-100 text-red-800"
    ensures category == "important" ==> r == "bg-yellow-100 text-yellow-800"
    ensures category == "urgent" ==> r == "bg-blue-100 text-blue-800"
    ensures category !in {"urgent-important", "important", "urgent"} ==> r == Gray
  {
    match category
    case "urgent-important" => "bg-red-100 text-red-800"
    case "important" => "bg-yellow-100 text-yellow-800"
    case "urgent" => "bg-blue-100 text-blue-800"
    case "neither" => Gray
    case _ => Gray
  }

  /** `formatTimeSpent`: nothing or zero minutes is "No time logged"; otherwise hours and minutes,
      the hours only from 60 minutes on. */
  function FormatTimeSpent(minutes: Option<nat>): (r: string)
    ensures minutes.None? || minutes.value == 0 ==> r == "No time logged"
    ensures minutes.Some? && 0 < minutes.value < 60 ==> r == NatToString(minutes.value) + "m"
    ensures minutes.Some? && minutes.value >= 60 ==>
      r == NatToString(minutes.value / 60) + "h " + NatToString(minutes.value % 60) + "m"
  {
    if minutes.None? || minutes.value == 0 then "No time logged"
    else
      var hours, mins := minutes.value / 60, minutes.value % 60;
      if hours > 0 then NatToString(hours) + "h " + NatToString(mins) + "m" else NatToString(mins) + "m"
  }

  /** Reads a time-spent text back into minutes: "{m}m" or "{h}h {m}m". */
  function ParseTimeSpent(t: string): Option<nat>
  {
    if t == [] || t[|t| - 1] != 'm' then None
    else
      var body := t[..|t| - 1];
      match IndexOf(body, 'h')
      case None => if body != [] && IsDigits(body) then Some(ParseDecimal(body)) else None
      case Some(k) => ParseHoursMinutes(body[..k], body[k + 1..])
  }

  function ParseHoursMinutes(hh: string, rest: string): Option<nat>
  {
    if hh != [] && IsDigits(hh) && |rest| >= 2 && rest[0] == ' ' && IsDigits(rest[1..])
    then Some(60 * ParseDecimal(hh) + ParseDecimal(rest[1..]))
    else None
  }

  /** Every logged time reads back as the minutes it was made from. */
  lemma FormatTimeSpentRoundTrip(m: nat)
    requires m > 0
    ensures ParseTimeSpent(FormatTimeSpent(Some(m))) == Some(m)
  {
    if m < 60 {
      MinutesOnly(NatToString(m));
      ParseNatToString(m);
    } else {
      HoursAndMinutes(NatToString(m / 60), NatToString(m % 60));
      ParseNatToString(m / 60);
      ParseNatToString(m % 60);
    }
  }

  lemma MinutesOnly(d: string)
    requires d != [] && IsDigits(d)
    ensures ParseTimeSpent(d + "m") == Some(ParseDecimal(d))
  {
    var t := d + "m";
    assert t[..|t| - 1] == d;
    assert forall i :: 0 <= i < |d| ==> d[i] != 'h';
    IndexOfAbsent(d, 'h');
  }

  lemma HoursAndMinutes(h: string, d: string)
    requires h != [] && d != [] && IsDigits(h) && IsDigits(d)
    ensures ParseTimeSpent(h + "h " + d + "m") == Some(60 * ParseDecimal(h) + ParseDecimal(d))
  {
    var rest := [' '] + d;
    var body := h + ['h'] + rest;
    var t := body + ['m'];
    assert h + "h " + d + "m" == t;
    assert t[..|t| - 1] == body;
    HoursFirst(h, rest);
    WithHours(t, |h|);
    assert body[..|h|] == h && body[|h| + 1..] == rest;
    SpaceThenMinutes(h, d);
  }

  lemma WithHours(t: string, k: nat)
    requires t != [] && t[|t| - 1] == 'm' && IndexOf(t[..|t| - 1], 'h') == Some(k)
    ensures ParseTimeSpent(t) == ParseHoursMinutes(t[..|t| - 1][..k], t[..|t| - 1][k + 1..])
  {
  }

  lemma HoursFirst(h: string, rest: string)
    requires IsDigits(h)
    ensures IndexOf(h + ['h'] + rest, 'h') == Some(|h|)
  {
    assert forall i :: 0 <= i < |h| ==> h[i] != 'h';
    IndexOfAfter(h, 'h', rest);
  }

  lemma SpaceThenMinutes(h: string, d: string)
    requires h != [] && d != [] && IsDigits(h) && IsDigits(d)
    ensures ParseHoursMinutes(h, [' '] + d) == Some(60 * ParseDecimal(h) + ParseDecimal(d))
  {
    assert ([' '] + d)[1..] == d;
  }

  /** The summary line: minutes over the tasks, a missing value counting as 0. */
  function TotalTime(tasks: seq<CompletedTask>): nat
  {
    if tasks == [] then 0 else TotalTime(tasks[..|tasks| - 1]) + tasks[|tasks| - 1].timeSpent.GetOr(0)
  }

  /** The total adds up over concatenation. */
  lemma {:induction false} TotalTimeAppend(a: seq<CompletedTask>, b: seq<CompletedTask>)
    ensures TotalTime(a + b) == TotalTime(a) + TotalTime(b)
    decreases |b|
  {
    if b == [] {
      assert a + b == a;
    } else {
      assert (a + b)[..|a + b| - 1] == a + b[..|b| - 1];
      assert (a + b)[|a + b| - 1] == b[|b| - 1];
      TotalTimeAppend(a, b[..|b| - 1]);
    }
  }

  /** The time shown for a filtered view never exceeds the time of all tasks. */
  lemma {:induction false} FilteredTimeBounded(tasks: seq<CompletedTask>, p: CompletedTask -> bool)
    ensures TotalTime(Filter(tasks, p)) <= TotalTime(tasks)
  {
    if tasks != [] {
      FilteredTimeBounded(tasks[1..], p);
      assert tasks == [tasks[0]] + tasks[1..];
      TotalTimeAppend([tasks[0]], tasks[1..]);
      if p(tasks[0]) {
        TotalTimeAppend([tasks[0]], Filter(tasks[1..], p));
      }
    }
  }

  /** The summary shows the total of the filtered tasks, formatted like a single task's time. */
  function TimeSpentSummary(tasks: seq<CompletedTask>, searchTerm: string, filterCategory: string): (r: string)
    ensures TotalTime(FilteredTasks(tasks, searchTerm, filterCategory)) == 0 ==> r == "No time logged"
    ensures TotalTime(FilteredTasks(tasks, searchTerm, filterCategory)) > 0 ==>
      ParseTimeSpent(r) == Some(TotalTime(FilteredTasks(tasks, searchTerm, filterCategory)))
  {
    var total := TotalTime(FilteredTasks(tasks, searchTerm, filterCategory));
    if total > 0 then
      FormatTimeSpentRoundTrip(total);
      FormatTimeSpent(Some(total))
    else FormatTimeSpent(Some(total))
  }
}
