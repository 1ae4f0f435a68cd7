/**
 * The list logic of the browser client (public/script.js): the filter over
 * the loaded tasks, the status counters, the due-date badge and the labels.
 * Dates are whole day numbers; `today` is the day number of the current date.
 */
module TaskList {

  /** A task's due date as the client sees it: none (empty or null), a day, or a string `Date` cannot parse. */
  datatype DueDate = NoDueDate | OnDay(day: int) | Unparseable

  /** A loaded task, with the fields the list logic reads. */
  datatype Card = Card(
    id: string,
    title: string,
    description: string,
    priority: string,
    status: string,
    due: DueDate)

  /** The search box and the three filter selects; "" means not set. */
  datatype Criteria = Criteria(search: string, status: string, priority: string, time: string)

  /** Today's day number and the first days of this month and the next. */
  datatype Calendar = Calendar(today: int, monthStart: int, nextMonthStart: int)

  ghost predicate ValidCalendar(cal: Calendar) {
    cal.monthStart <= cal.today < cal.nextMonthStart
  }

  // ---------------------------------------------------------------------
  // Search

  function LowerChar(c: char): char {
    if 'A' <= c <= 'Z' then (c as int + 32) as char else c
  }

  /** `toLowerCase`, on the ASCII letters. */
  function Lower(s: string): (r: string)
    ensures |r| == |s|
    ensures forall i | 0 <= i < |r| :: !('A' <= r[i] <= 'Z')
    ensures forall i | 0 <= i < |r| :: s[i] == r[i] || ('A' <= s[i] <= 'Z' && r[i] as int == s[i] as int + 32)
  {
    seq(|s|, i requires 0 <= i < |s| => LowerChar(s[i]))
  }

  /** `s.includes(t)`. */
  function Contains(s: string, t: string): (b: bool)
    ensures t == [] ==> b
    ensures b ==> |t| <= |s|
    decreases |s|
  {
    t <= s || (s != [] && Contains(s[1..], t))
  }

  /** `t` occurs in `s` starting at position `i`. */
  ghost predicate OccursAt(s: string, t: string, i: int) {
    0 <= i && i + |t| <= |s| && s[i..i + |t|] == t
  }

  /** `includes` holds exactly when `t` occurs at some position of `s`. */
  lemma {:induction false} ContainsIffOccurs(s: string, t: string)
    ensures Contains(s, t) <==> exists i :: OccursAt(s, t, i)
  {
    if t <= s {
      assert OccursAt(s, t, 0);
    }
    if s != [] {
      ContainsIffOccurs(s[1..], t);
      if Contains(s[1..], t) {
        var i :| OccursAt(s[1..], t, i);
        assert s[i + 1..i + 1 + |t|] == s[1..][i..i + |t|];
        assert OccursAt(s, t, i + 1);
      }
      if exists i :: OccursAt(s, t, i) {
        var i :| OccursAt(s, t, i);
        if i > 0 {
          assert s[1..][i - 1..i - 1 + |t|] == s[i..i + |t|];
          assert OccursAt(s[1..], t, i - 1);
        } else {
          assert t <= s;
        }
      }
    } else if exists i :: OccursAt(s, t, i) {
      var i :| OccursAt(s, t, i);
      assert t <= s;
    }
  }

  /** Every string includes the empty string, so an empty search matches every task. */
  lemma EmptySearchMatches(s: string)
    ensures Contains(Lower(s), Lower(""))
  {
    assert Lower("") == "";
  }

  // ---------------------------------------------------------------------
  // Time filter

  const TimeFilters: set<string> := {"today", "week", "month", "overdue", "upcoming"}

  /** matchesTimeFilter: the window a due day must fall in for the selected filter. */
  function MatchesTimeFilter(c: Card, filter: string, cal: Calendar): (b: bool)
    ensures c.due == NoDueDate ==> !b
    ensures c.due != NoDueDate && filter !in TimeFilters ==> b
    ensures c.due == Unparseable ==> (b <==> filter !in TimeFilters)
  {
    match c.due
    case NoDueDate => false
    case Unparseable => filter !in TimeFilters
    case OnDay(d) =>
      if filter == "today" then cal.today <= d < cal.today + 1
      else if filter == "week" then cal.today <= d < cal.today + 7
      else if filter == "month" then cal.monthStart <= d < cal.nextMonthStart
      else if filter == "overdue" then d < cal.today
      else if filter == "upcoming" then cal.today <= d < cal.today + 3
      else true
  }

  /** Each window, as a distance in days from today (the month's by its bounds). */
  lemma TimeFilterWindows(c: Card, cal: Calendar)
    requires c.due.OnDay?
    ensures var diff := c.due.day - cal.today;
      && (MatchesTimeFilter(c, "today", cal) <==> diff == 0)
      && (MatchesTimeFilter(c, "upcoming", cal) <==> 0 <= diff < 3)
      && (MatchesTimeFilter(c, "week", cal) <==> 0 <= diff < 7)
      && (MatchesTimeFilter(c, "overdue", cal) <==> diff < 0)
      && (MatchesTimeFilter(c, "month", cal) <==> cal.monthStart <= c.due.day < cal.nextMonthStart)
  {
  }

  /** The windows nest: today within upcoming within week (and within month); overdue meets none of them. */
  lemma TimeWindowsNest(c: Card, cal: Calendar)
    ensures MatchesTimeFilter(c, "today", cal) ==> MatchesTimeFilter(c, "upcoming", cal)
    ensures MatchesTimeFilter(c, "upcoming", cal) ==> MatchesTimeFilter(c, "week", cal)
    ensures ValidCalendar(cal) && MatchesTimeFilter(c, "today", cal) ==> MatchesTimeFilter(c, "month", cal)
    ensures MatchesTimeFilter(c, "overdue", cal) ==>
      !MatchesTimeFilter(c, "today", cal) && !MatchesTimeFilter(c, "upcoming", cal) &&
      !MatchesTimeFilter(c, "week", cal)
  {
  }

  // ---------------------------------------------------------------------
  // filterTasks

  /** The predicate of filterTasks: search on title or description, and every filter that is set. */
  predicate Matches(c: Card, crit: Criteria, cal: Calendar): (b: bool)
    ensures crit == Criteria("", "", "", "") ==> b
    ensures b && crit.status != "" ==> c.status == crit.status
    ensures b && crit.priority != "" ==> c.priority == crit.priority
    ensures b && crit.time != "" ==> c.due != NoDueDate
  {
    EmptySearchMatches(c.title);
    var term := Lower(crit.search);
    && (Contains(Lower(c.title), term) || Contains(Lower(c.description), term))
    && (crit.status == "" || c.status == crit.status)
    && (crit.priority == "" || c.priority == crit.priority)
    && (crit.time == "" || MatchesTimeFilter(c, crit.time, cal))
  }

  /** filterTasks: the loaded tasks the predicate accepts. */
  function FilterTasks(ts: seq<Card>, crit: Criteria, cal: Calendar): (r: seq<Card>)
    ensures |r| <= |ts|
    ensures forall i | 0 <= i < |r| :: r[i] in ts && Matches(r[i], crit, cal)
    ensures forall i | 0 <= i < |r| :: crit.status != "" ==> r[i].status == crit.status
    ensures forall i | 0 <= i < |r| :: crit.priority != "" ==> r[i].priority == crit.priority
  {
    if ts == [] then []
    else
      var rest := FilterTasks(ts[1..], crit, cal);
      if Matches(ts[0], crit, cal) then [ts[0]] + rest else rest
  }

  /** `r` is `s` with some elements dropped and the rest in their order. */
  ghost predicate IsSubsequence(r: seq<Card>, s: seq<Card>)
    decreases |s|
  {
    if r == [] then true
    else if s == [] then false
    else (r[0] == s[0] && IsSubsequence(r[1..], s[1..])) || IsSubsequence(r, s[1..])
  }

  lemma {:induction false} FilterIsSubsequence(ts: seq<Card>, crit: Criteria, cal: Calendar)
    ensures IsSubsequence(FilterTasks(ts, crit, cal), ts)
  {
    if ts != [] {
      FilterIsSubsequence(ts[1..], crit, cal);
      var rest := FilterTasks(ts[1..], crit, cal);
      if Matches(ts[0], crit, cal) {
        assert ([ts[0]] + rest)[1..] == rest;
      } else if rest != [] {
        assert IsSubsequence(rest, ts[1..]);
      }
    }
  }

  /** No matching task is dropped. */
  lemma {:induction false} FilterKeepsEveryMatch(ts: seq<Card>, crit: Criteria, cal: Calendar)
    ensures forall i | 0 <= i < |ts| && Matches(ts[i], crit, cal) :: ts[i] in FilterTasks(ts, crit, cal)
  {
    if ts != [] {
      FilterKeepsEveryMatch(ts[1..], crit, cal);
      forall i | 0 <= i < |ts| && Matches(ts[i], crit, cal)
        ensures ts[i] in FilterTasks(ts, crit, cal)
      {
        if i > 0 {
          assert ts[1..][i - 1] == ts[i];
        }
      }
    }
  }

  /** Each card is shown as many times as it is loaded if it matches, and not at all otherwise. */
  lemma {:induction false} FilterKeepsMultiplicity(ts: seq<Card>, crit: Criteria, cal: Calendar, c: Card)
    ensures multiset(FilterTasks(ts, crit, cal))[c] == if Matches(c, crit, cal) then multiset(ts)[c] else 0
  {
    if ts != [] {
      FilterKeepsMultiplicity(ts[1..], crit, cal, c);
      assert ts == [ts[0]] + ts[1..];
      assert multiset(ts) == multiset{ts[0]} + multiset(ts[1..]);
    }
  }

  /** With the search box empty and no filter set, every task is shown, in order. */
  lemma {:induction false} FilterWithNothingSetIsIdentity(ts: seq<Card>, cal: Calendar)
    ensures FilterTasks(ts, Criteria("", "", "", ""), cal) == ts
  {
    if ts != [] {
      EmptySearchMatches(ts[0].title);
      FilterWithNothingSetIsIdentity(ts[1..], cal);
      assert [ts[0]] + ts[1..] == ts;
    }
  }

  // ---------------------------------------------------------------------
  // updateStatistics

  datatype Stats = Stats(total: nat, pending: nat, inProgress: nat, completed: nat)

  const KnownStatuses: set<string> := {"pending", "in-progress", "completed"}

  /** `tasks.filter(t => t.status === s).length`. */
  function CountStatus(ts: seq<Card>, s: string): (n: nat)
    ensures n <= |ts|
    ensures (forall i | 0 <= i < |ts| :: ts[i].status != s) ==> n == 0
    ensures (forall i | 0 <= i < |ts| :: ts[i].status == s) ==> n == |ts|
  {
    if ts == [] then 0 else (if ts[0].status == s then 1 else 0) + CountStatus(ts[1..], s)
  }

  lemma {:induction false} StatusCountsBound(ts: seq<Card>)
    ensures CountStatus(ts, "pending") + CountStatus(ts, "in-progress") + CountStatus(ts, "completed") <= |ts|
    ensures (forall i | 0 <= i < |ts| :: ts[i].status in KnownStatuses) ==>
      CountStatus(ts, "pending") + CountStatus(ts, "in-progress") + CountStatus(ts, "completed") == |ts|
  {
    if ts != [] {
      StatusCountsBound(ts[1..]);
    }
  }

  /** updateStatistics: the four counters. */
  function Statistics(ts: seq<Card>): (st: Stats)
    ensures st.total == |ts|
    ensures st.pending == CountStatus(ts, "pending")
    ensures st.inProgress == CountStatus(ts, "in-progress")
    ensures st.completed == CountStatus(ts, "completed")
    ensures st.pending + st.inProgress + st.completed <= st.total
    ensures (forall i | 0 <= i < |ts| :: ts[i].status in KnownStatuses) ==>
      st.pending + st.inProgress + st.completed == st.total
  {
    StatusCountsBound(ts);
    Stats(|ts|, CountStatus(ts, "pending"), CountStatus(ts, "in-progress"), CountStatus(ts, "completed"))
  }

  /** A status counter equals the number of cards the status filter alone shows. */
  lemma {:induction false} CountIsStatusFilterSize(ts: seq<Card>, s: string, cal: Calendar)
    requires s != ""
    ensures CountStatus(ts, s) == |FilterTasks(ts, Criteria("", s, "", ""), cal)|
  {
    if ts != [] {
      EmptySearchMatches(ts[0].title);
      CountIsStatusFilterSize(ts[1..], s, cal);
    }
  }

  // ---------------------------------------------------------------------
  // getDueDateInfo

  /** The parenthesised note after the due date. */
  datatype DueNote = NoNote | OverdueBy(days: nat) | DueToday | DueIn(days: nat)

  /** The badge's CSS class ("" means no badge) and its note. */
  datatype DueInfo = DueInfo(className: string, note: DueNote)

  const Overdue: string := "task-due-date overdue"
  const DueSoon: string := "task-due-date due-soon"
  const Plain: string := "task-due-date"

  /** getDueDateInfo, with `diffDays` the due day minus today. */
  function GetDueDateInfo(due: DueDate, today: int): (info: DueInfo)
    ensures info.className == "" <==> due == NoDueDate
    ensures info.className == Overdue <==> due.OnDay? && due.day < today
    ensures info.className == DueSoon <==> due.OnDay? && today <= due.day <= today + 3
    ensures info.className in {"", Overdue, DueSoon, Plain}
    ensures info.className in {"", Plain} ==> info.note == NoNote
    ensures info.note == DueToday <==> due.OnDay? && due.day == today
    ensures due.OnDay? && due.day < today ==> info.note == OverdueBy(today - due.day)
    ensures due.OnDay? && today < due.day <= today + 3 ==> info.note == DueIn(due.day - today)
  {
    match due
    case NoDueDate => DueInfo("", NoNote)
    case Unparseable => DueInfo(Plain, NoNote)   // NaN fails both comparisons
    case OnDay(d) =>
      var diffDays := d - today;
      if diffDays < 0 then DueInfo(Overdue, OverdueBy(-diffDays))
      else if diffDays <= 3 then DueInfo(DueSoon, if diffDays == 0 then DueToday else DueIn(diffDays))
      else DueInfo(Plain, NoNote)
  }

  /**
   * Measured in whole days from the same `today`, the badge and the time
   * filter agree on overdue (the source measures the badge from the current
   * instant and the filter from local midnight, so outside UTC they can
   * differ near midnight); "upcoming" cards are all
   * badged due-soon, but the badge also covers the third day after today,
   * which the "upcoming" filter leaves out.
   */
  lemma BadgeAgreesWithTimeFilter(c: Card, cal: Calendar)
    ensures GetDueDateInfo(c.due, cal.today).className == Overdue <==> MatchesTimeFilter(c, "overdue", cal)
    ensures MatchesTimeFilter(c, "upcoming", cal) ==> GetDueDateInfo(c.due, cal.today).className == DueSoon
    ensures GetDueDateInfo(c.due, cal.today).className == DueSoon ==> MatchesTimeFilter(c, "week", cal)
    ensures c.due == OnDay(cal.today + 3) ==>
      GetDueDateInfo(c.due, cal.today).className == DueSoon && !MatchesTimeFilter(c, "upcoming", cal)
  {
  }

  // ---------------------------------------------------------------------
  // Labels

  const PriorityLabels: map<string, string> := map["high" := "高", "medium" := "中", "low" := "低"]
  const StatusLabels: map<string, string> :=
    map["pending" := "待处理", "in-progress" := "进行中", "completed" := "已完成"]

  /** `labels[key] || key`. */
  function LabelOr(labels: map<string, string>, key: string): string {
    if key in labels && labels[key] != "" then labels[key] else key
  }

  /** getPriorityText: the label of a known priority, any other value unchanged. */
  function GetPriorityText(p: string): (r: string)
    ensures p in PriorityLabels ==> r == PriorityLabels[p]
    ensures p !in PriorityLabels ==> r == p
  {
    LabelOr(PriorityLabels, p)
  }

  /** getStatusText: the label of a known status, any other value unchanged. */
  function GetStatusText(s: string): (r: string)
    ensures s in StatusLabels ==> r == StatusLabels[s]
    ensures s !in StatusLabels ==> r == s
  {
    LabelOr(StatusLabels, s)
  }
}
