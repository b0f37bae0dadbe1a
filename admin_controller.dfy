/**
 * The administrators' activity report (`activities` in
 * src/Controller/AdminController.php): every activity, newest first, grouped
 * by the month of its work date, with the hours of each group and of the
 * whole listing, the groups ordered from the latest month to the earliest.
 * PHP's array keyed by 'Y-m' is a sequence of groups in insertion order, each
 * carrying its key; `krsort` is a sort of that sequence by key, descending.
 */
module AdminController {
  import opened Calendar
  import opened Collections
  import opened Ordering
  import opened Domain
  import ActivityRepository

  /** The 'Y-m' group key. */
  datatype MonthKey = MonthKey(year: int, month: int)

  /**
   * One `$activitiesByMonth[$monthKey]` entry.  `labelDate` is the work date the
   * 'F Y' label is formatted from.
   */
  datatype MonthGroup = MonthGroup(key: MonthKey, labelDate: Date, entries: seq<Activity>, totalHours: Hundredths)

  /** What the page is rendered with. */
  datatype Report = Report(activitiesByMonth: seq<MonthGroup>, totalEntries: int, totalHours: Hundredths)

  function KeyOf(a: Activity): MonthKey { MonthKey(a.workDate.year, a.workDate.month) }
  function GroupKey(g: MonthGroup): MonthKey { g.key }
  function Hours(a: Activity): Hundredths { a.hours }
  function Size(g: MonthGroup): int { |g.entries| }
  function GroupHours(g: MonthGroup): Hundredths { g.totalHours }

  function InMonth(key: MonthKey): Activity -> bool
  {
    (a: Activity) => KeyOf(a) == key
  }

  /** `krsort` on 'Y-m' keys, latest month first. */
  function LatestFirst(g: MonthGroup): seq<int> { [-g.key.year, -g.key.month] }

  ghost function Keys(groups: seq<MonthGroup>): set<MonthKey>
  {
    set g | g in groups :: g.key
  }

  /** `isset($activitiesByMonth[$monthKey])`, answered with the position of the key. */
  function Find(groups: seq<MonthGroup>, key: MonthKey): (r: int)
    ensures -1 <= r < |groups|
    ensures r >= 0 ==> groups[r].key == key
    ensures r == -1 ==> key !in Keys(groups)
  {
    if groups == [] then -1
    else if groups[|groups| - 1].key == key then |groups| - 1
    else Find(groups[..|groups| - 1], key)
  }

  /** A group holds exactly the activities of its month, in listing order, labelled by the first of them and with their hours added up. */
  ghost predicate GroupSummarizes(g: MonthGroup, listed: seq<Activity>)
  {
    g.entries == Filter(listed, InMonth(g.key))
    && g.entries != []
    && g.labelDate == g.entries[0].workDate
    && g.totalHours == Sum(g.entries, Hours)
  }

  /** Every group summarizes its month of `listed`. */
  ghost predicate AllSummarize(groups: seq<MonthGroup>, listed: seq<Activity>)
  {
    forall j :: 0 <= j < |groups| ==> GroupSummarizes(groups[j], listed)
  }

  /** Every activity of `listed` has the group of its month. */
  ghost predicate Covers(groups: seq<MonthGroup>, listed: seq<Activity>)
  {
    forall a :: a in listed ==> KeyOf(a) in Keys(groups)
  }

  /** The state of the grouping loop after the activities `listed`. */
  ghost predicate Summarizes(groups: seq<MonthGroup>, listed: seq<Activity>)
  {
    Injective(groups, GroupKey)
    && AllSummarize(groups, listed)
    && Covers(groups, listed)
    && Sum(groups, Size) == |listed|
    && Sum(groups, GroupHours) == Sum(listed, Hours)
  }

  lemma SummarizesNothing()
    ensures Summarizes([], [])
  {
  }

  /** `$activitiesByMonth[$monthKey]['entries'][] = $activity` and the `totalHours` addition. */
  function Extended(g: MonthGroup, a: Activity): MonthGroup
  {
    g.(entries := g.entries + [a], totalHours := g.totalHours + a.hours)
  }

  /** The group `activities` opens for a month it meets first: labelled by that activity, empty, with no hours. */
  function NewGroup(a: Activity): MonthGroup
  {
    MonthGroup(KeyOf(a), a.workDate, [], 0)
  }

  /** One pass of the grouping loop: the activity joins the group of its month, which is opened at the end if missing. */
  function Add(groups: seq<MonthGroup>, a: Activity): seq<MonthGroup>
  {
    var j := Find(groups, KeyOf(a));
    if j == -1 then groups + [Extended(NewGroup(a), a)] else groups[j := Extended(groups[j], a)]
  }

  /** The groups the loop has built after the activities `listed`. */
  function Grouped(listed: seq<Activity>): seq<MonthGroup>
  {
    if listed == [] then [] else Add(Grouped(listed[..|listed| - 1]), listed[|listed| - 1])
  }

  /** A group of another month is not affected by one more activity. */
  lemma OtherMonthUnaffected(g: MonthGroup, listed: seq<Activity>, a: Activity)
    requires GroupSummarizes(g, listed) && g.key != KeyOf(a)
    ensures GroupSummarizes(g, listed + [a])
  {
    assert (listed + [a])[..|listed|] == listed;
  }

  /** The group of the activity's month gains it at its end. */
  lemma OwnMonthGains(g: MonthGroup, listed: seq<Activity>, a: Activity)
    requires GroupSummarizes(g, listed) && g.key == KeyOf(a)
    ensures GroupSummarizes(Extended(g, a), listed + [a])
  {
    assert (listed + [a])[..|listed|] == listed;
    assert (g.entries + [a])[..|g.entries|] == g.entries;
  }

  /** Extending the group at `j` keeps every group summarizing its month. */
  lemma ExtendAll(groups: seq<MonthGroup>, listed: seq<Activity>, a: Activity, j: nat)
    requires Injective(groups, GroupKey) && AllSummarize(groups, listed)
    requires j < |groups| && groups[j].key == KeyOf(a)
    ensures AllSummarize(groups[j := Extended(groups[j], a)], listed + [a])
  {
    var groups' := groups[j := Extended(groups[j], a)];
    forall m | 0 <= m < |groups'| ensures GroupSummarizes(groups'[m], listed + [a]) {
      if m == j {
        OwnMonthGains(groups[j], listed, a);
      } else {
        assert GroupKey(groups[m]) != GroupKey(groups[j]);
        OtherMonthUnaffected(groups[m], listed, a);
      }
    }
  }

  /** Adding an activity to the group of its month, which exists at position `j`. */
  lemma ExtendGroup(groups: seq<MonthGroup>, listed: seq<Activity>, a: Activity, j: nat)
    requires Summarizes(groups, listed)
    requires j < |groups| && groups[j].key == KeyOf(a)
    ensures Summarizes(groups[j := Extended(groups[j], a)], listed + [a])
  {
    var g' := Extended(groups[j], a);
    ExtendAll(groups, listed, a, j);
    ExtendCovers(groups, listed, a, j);
    SumUpdate(groups, j, g', Size);
    SumUpdate(groups, j, g', GroupHours);
    SumSnoc(listed, a, Hours);
  }

  /** Extending the group at `j` keeps the months distinct and covered. */
  lemma ExtendCovers(groups: seq<MonthGroup>, listed: seq<Activity>, a: Activity, j: nat)
    requires Injective(groups, GroupKey) && Covers(groups, listed)
    requires j < |groups| && groups[j].key == KeyOf(a)
    ensures Injective(groups[j := Extended(groups[j], a)], GroupKey)
    ensures Covers(groups[j := Extended(groups[j], a)], listed + [a])
  {
    var groups' := groups[j := Extended(groups[j], a)];
    var listed' := listed + [a];
    assert listed'[..|listed|] == listed;
    assert forall m :: 0 <= m < |groups'| ==> GroupKey(groups'[m]) == GroupKey(groups[m]);
    assert groups[j] in groups;
    SameKeys(groups, groups', listed, listed');
  }

  /** Groups with the same keys position by position have the same key set and the same distinctness. */
  lemma SameKeys(groups: seq<MonthGroup>, groups': seq<MonthGroup>, listed: seq<Activity>, listed': seq<Activity>)
    requires |groups| == |groups'| && forall m :: 0 <= m < |groups'| ==> GroupKey(groups'[m]) == GroupKey(groups[m])
    requires Injective(groups, GroupKey)
    requires Covers(groups, listed)
    requires |listed'| == |listed| + 1 && listed'[..|listed|] == listed && KeyOf(listed'[|listed|]) in Keys(groups)
    ensures Injective(groups', GroupKey)
    ensures Covers(groups', listed')
  {
    assert Keys(groups) <= Keys(groups') by {
      forall k | k in Keys(groups) ensures k in Keys(groups') {
        var h :| h in groups && h.key == k;
        var m :| 0 <= m < |groups| && groups[m] == h;
        assert groups'[m] in groups';
      }
    }
    forall b | b in listed' ensures KeyOf(b) in Keys(groups) {
      var n :| 0 <= n < |listed'| && listed'[n] == b;
      if n < |listed| { assert listed[n] == b; }
    }
  }

  /** Opening a new last group keeps every earlier group summarizing its month, and the new one summarizes its own. */
  lemma OpenAll(groups: seq<MonthGroup>, listed: seq<Activity>, a: Activity)
    requires AllSummarize(groups, listed) && Covers(groups, listed)
    requires KeyOf(a) !in Keys(groups)
    ensures AllSummarize(groups + [Extended(NewGroup(a), a)], listed + [a])
  {
    var g' := Extended(NewGroup(a), a);
    var groups' := groups + [g'];
    FirstOfMonth(listed, a);
    forall m | 0 <= m < |groups'| ensures GroupSummarizes(groups'[m], listed + [a]) {
      if m < |groups| {
        assert groups'[m] == groups[m] && groups[m] in groups;
        OtherMonthUnaffected(groups[m], listed, a);
      }
    }
  }

  /** Opening the group of a month not seen yet, with the activity as its first entry. */
  lemma OpenGroup(groups: seq<MonthGroup>, listed: seq<Activity>, a: Activity)
    requires Summarizes(groups, listed)
    requires KeyOf(a) !in Keys(groups)
    ensures Summarizes(groups + [Extended(NewGroup(a), a)], listed + [a])
  {
    var g' := Extended(NewGroup(a), a);
    OpenAll(groups, listed, a);
    forall z | z in groups ensures GroupKey(z) != GroupKey(g') {
    }
    InjectiveSnoc(groups, g', GroupKey);
    NewKeyCovers(groups, listed, a);
    SumSnoc(groups, g', Size);
    SumSnoc(groups, g', GroupHours);
    SumSnoc(listed, a, Hours);
  }

  /** The first activity of a month forms that month's group on its own. */
  lemma FirstOfMonth(listed: seq<Activity>, a: Activity)
    requires forall b :: b in listed ==> KeyOf(b) != KeyOf(a)
    ensures GroupSummarizes(Extended(NewGroup(a), a), listed + [a])
  {
    assert (listed + [a])[..|listed|] == listed;
    FilterNone(listed, InMonth(KeyOf(a)));
    assert [] + [a] == [a];
    assert [a][..0] == [];
  }

  lemma NewKeyCovers(groups: seq<MonthGroup>, listed: seq<Activity>, a: Activity)
    requires Covers(groups, listed)
    ensures Covers(groups + [Extended(NewGroup(a), a)], listed + [a])
  {
    var g' := Extended(NewGroup(a), a);
    forall b | b in listed + [a] ensures KeyOf(b) in Keys(groups + [g']) {
      if b in listed {
        var h :| h in groups && h.key == KeyOf(b);
        assert h in groups + [g'];
      } else {
        assert g' in groups + [g'];
      }
    }
  }

  /** One pass of the loop keeps the summary. */
  lemma AddSummarizes(groups: seq<MonthGroup>, listed: seq<Activity>, a: Activity)
    requires Summarizes(groups, listed)
    ensures Summarizes(Add(groups, a), listed + [a])
  {
    var j := Find(groups, KeyOf(a));
    if j == -1 {
      OpenGroup(groups, listed, a);
    } else {
      ExtendGroup(groups, listed, a, j);
    }
  }

  /** The loop's groups summarize the activities it has gone through. */
  lemma {:induction false} GroupedSummarizes(listed: seq<Activity>)
    ensures Summarizes(Grouped(listed), listed)
    decreases |listed|
  {
    if listed == [] {
      SummarizesNothing();
    } else {
      var init, a := listed[..|listed| - 1], listed[|listed| - 1];
      assert init + [a] == listed;
      GroupedSummarizes(init);
      AddSummarizes(Grouped(init), init, a);
    }
  }

  /** Sorting the groups keeps every property of the loop's result. */
  lemma ReorderGroups(groups: seq<MonthGroup>, sorted: seq<MonthGroup>, listed: seq<Activity>)
    requires Summarizes(groups, listed)
    requires multiset(sorted) == multiset(groups)
    ensures Summarizes(sorted, listed)
  {
    SameElements(groups, sorted);
    InjectivePermutation(groups, sorted, GroupKey);
    SumPermutation(groups, sorted, Size);
    SumPermutation(groups, sorted, GroupHours);
    forall j | 0 <= j < |sorted| ensures GroupSummarizes(sorted[j], listed) {
      assert sorted[j] in groups;
    }
    forall b | b in listed ensures KeyOf(b) in Keys(sorted) {
      var h :| h in groups && h.key == KeyOf(b);
      assert h in sorted;
    }
  }

  /** Two month keys compared by `LatestFirst`. */
  lemma LatestFirstOrder(g: MonthGroup, h: MonthGroup)
    ensures LexLe(LatestFirst(g), LatestFirst(h))
        <==> g.key.year > h.key.year || (g.key.year == h.key.year && g.key.month >= h.key.month)
  {
    var kg, kh := LatestFirst(g), LatestFirst(h);
    assert kg[1..] == [-g.key.month] && kh[1..] == [-h.key.month];
    assert LexLe([-g.key.month], [-h.key.month]) <==> -g.key.month <= -h.key.month by {
      assert [-g.key.month][1..] == [] && [-h.key.month][1..] == [];
    }
  }

  /** Month `a` is strictly later than month `b`. */
  predicate Later(a: MonthKey, b: MonthKey)
  {
    a.year > b.year || (a.year == b.year && a.month > b.month)
  }

  /** `krsort($activitiesByMonth)`: the groups from the latest month to the earliest. */
  function SortLatestFirst(groups: seq<MonthGroup>): (sorted: seq<MonthGroup>)
    requires Injective(groups, GroupKey)
    ensures multiset(sorted) == multiset(groups)
    ensures forall i, j :: 0 <= i < j < |sorted| ==> Later(sorted[i].key, sorted[j].key)
  {
    SortPermutes(groups, LatestFirst);
    SortSorts(groups, LatestFirst);
    var sorted := SortByKey(groups, LatestFirst);
    InjectivePermutation(groups, sorted, GroupKey);
    forall i, j | 0 <= i < j < |sorted| ensures Later(sorted[i].key, sorted[j].key) {
      LatestFirstOrder(sorted[i], sorted[j]);
      assert GroupKey(sorted[i]) != GroupKey(sorted[j]);
    }
    sorted
  }

  /** The loop of `activities`: each activity, in listing order, joins the group of its month, and its hours join the total. */
  method GroupByMonth(activities: seq<Activity>) returns (activitiesByMonth: seq<MonthGroup>, totalHours: Hundredths)
    ensures activitiesByMonth == Grouped(activities)
    ensures totalHours == Sum(activities, Hours)
  {
    activitiesByMonth := [];
    totalHours := 0;
    var i := 0;
    while i < |activities|
      invariant 0 <= i <= |activities|
      invariant activitiesByMonth == Grouped(activities[..i])
      invariant totalHours == Sum(activities[..i], Hours)
    {
      var activity := activities[i];
      assert activities[..i + 1][..i] == activities[..i];
      SumSnoc(activities[..i], activity, Hours);
      assert activities[..i + 1] == activities[..i] + [activity];
      var monthKey := KeyOf(activity);
      var j := Find(activitiesByMonth, monthKey);
      if j == -1 {
        activitiesByMonth := activitiesByMonth + [NewGroup(activity)];
        j := |activitiesByMonth| - 1;
      }
      activitiesByMonth := activitiesByMonth[j := Extended(activitiesByMonth[j], activity)];
      totalHours := totalHours + activity.hours;
      i := i + 1;
    }
    assert activities[..i] == activities;
  }

  /**
   * `activities`: groups the full activity listing by month.  Each group
   * holds exactly its month's activities in listing order, labelled by the
   * first of them, with its hours summed; every activity is in the group of
   * its month and no month has two groups; groups run from the latest month
   * to the earliest; the totals count and add up every activity, and agree
   * with the groups.
   */
  method Activities(rows: seq<Activity>) returns (report: Report)
    ensures var listed := ActivityRepository.FindAllOrderedByDate(rows);
      forall j :: 0 <= j < |report.activitiesByMonth| ==> GroupSummarizes(report.activitiesByMonth[j], listed)
    ensures forall a :: a in rows ==> KeyOf(a) in Keys(report.activitiesByMonth)
    ensures Injective(report.activitiesByMonth, GroupKey)
    ensures forall i, j :: 0 <= i < j < |report.activitiesByMonth| ==>
              Later(report.activitiesByMonth[i].key, report.activitiesByMonth[j].key)
    ensures report.totalEntries == |rows| == Sum(report.activitiesByMonth, Size)
    ensures report.totalHours == Sum(rows, Hours) == Sum(report.activitiesByMonth, GroupHours)
  {
    var activities := ActivityRepository.FindAllOrderedByDate(rows);
    var activitiesByMonth, totalHours := GroupByMonth(activities);
    GroupedSummarizes(activities);
    var sorted := SortLatestFirst(activitiesByMonth);
    ReorderGroups(activitiesByMonth, sorted, activities);
    SameElements(rows, activities);
    SumPermutation(rows, activities, Hours);
    assert |rows| == |multiset(rows)| == |multiset(activities)| == |activities|;
    report := Report(sorted, |activities|, totalHours);
  }
}
