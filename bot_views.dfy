/**
 * The per-user dashboard report: the days of a date window, the worklogs
 * and commits of each day, and each day's summary, where worklogs are
 * grouped by what they are listed as. Dates are day ordinals.
 */
module BotViews {
  import opened Wrappers
  import opened Collections
  import opened Dates
  import opened Models

  // ----- date windows ----------------------------------------------------

  /** The days `lo, lo + 1, ..., hi` (none when `lo > hi`). */
  function DateRange(lo: int, hi: int): (r: seq<int>)
    ensures |r| == if lo <= hi then hi - lo + 1 else 0
    ensures forall k :: 0 <= k < |r| ==> r[k] == lo + k
    decreases hi - lo
  {
    if lo > hi then [] else [lo] + DateRange(lo + 1, hi)
  }

  function Min(a: int, b: int): int { if a <= b then a else b }

  function Max(a: int, b: int): int { if a <= b then b else a }

  /** What `iterate_dates(a, b)` yields. */
  function Window(a: int, b: int): seq<int> {
    DateRange(Min(a, b), Max(a, b))
  }

  /**
   * The window holds every day between its two ends and nothing else,
   * ascending, one entry per day, whichever end is given first.
   */
  lemma WindowSpec(a: int, b: int)
    ensures Window(a, b) == Window(b, a)
    ensures |Window(a, b)| == Max(a, b) - Min(a, b) + 1
    ensures forall d :: d in Window(a, b) <==> Min(a, b) <= d <= Max(a, b)
    ensures forall i, j :: 0 <= i < j < |Window(a, b)| ==> Window(a, b)[i] < Window(a, b)[j]
  {
    var w := Window(a, b);
    forall d | Min(a, b) <= d <= Max(a, b) ensures d in w {
      assert w[d - Min(a, b)] == d;
    }
  }

  /** `list(iterate_dates(from_date, to_date))`: the while loop advancing `dt` by one day. */
  method IterateDates(from: int, to: int) returns (dates: seq<int>)
    ensures dates == Window(from, to)
  {
    var start, end := Min(from, to), Max(from, to);
    dates := [];
    var dt := start;
    while dt <= end
      invariant start <= dt <= end + 1
      invariant dates == DateRange(start, dt - 1)
      decreases end - dt
    {
      assert DateRange(start, dt - 1) + [dt] == DateRange(start, dt);
      dates := dates + [dt];
      dt := dt + 1;
    }
  }

  /** Three consecutive days come out ascending in either argument order. */
  lemma ThreeDayWindow(d: int)
    ensures Window(d, d + 2) == [d, d + 1, d + 2]
    ensures Window(d + 2, d) == [d, d + 1, d + 2]
  {
    assert DateRange(d, d + 2)[0] == d;
  }

  // ----- normalized values -------------------------------------------------

  /** The value of the last item dated `d`, if any. */
  function LastValue<A, V>(items: seq<A>, date: A -> int, value: A -> V, d: int): (r: Option<V>)
    ensures r.None? <==> forall i :: 0 <= i < |items| ==> date(items[i]) != d
  {
    if items == [] then None
    else
      var n := |items| - 1;
      if date(items[n]) == d then Some(value(items[n])) else LastValue(items[..n], date, value, d)
  }

  /** A found value belongs to an item dated `d` that no later item dated `d` follows. */
  lemma {:induction false} LastValueIsLast<A, V>(items: seq<A>, date: A -> int, value: A -> V, d: int) returns (i: nat)
    requires LastValue(items, date, value, d).Some?
    ensures i < |items| && date(items[i]) == d
    ensures LastValue(items, date, value, d) == Some(value(items[i]))
    ensures forall j :: i < j < |items| ==> date(items[j]) != d
  {
    var n := |items| - 1;
    if date(items[n]) == d {
      i := n;
    } else {
      i := LastValueIsLast(items[..n], date, value, d);
      assert items[..n][i] == items[i];
    }
  }

  /**
   * `normalized_values`: fill a dict date -> value over the items, later
   * items overwriting earlier ones, then read it back for each day of the
   * window.
   */
  method NormalizedValues<A, V>(from: int, to: int, items: seq<A>, date: A -> int, value: A -> V)
    returns (values: seq<Option<V>>)
    ensures |values| == |Window(from, to)|
    ensures forall k :: 0 <= k < |values| ==> values[k] == LastValue(items, date, value, Window(from, to)[k])
  {
    var byDate: map<int, V> := map[];
    for i := 0 to |items|
      invariant forall d :: LastValue(items[..i], date, value, d) == if d in byDate then Some(byDate[d]) else None
    {
      assert items[..i + 1][..i] == items[..i];
      byDate := byDate[date(items[i]) := value(items[i])];
    }
    assert items[..|items|] == items;
    var dates := IterateDates(from, to);
    values := [];
    for j := 0 to |dates|
      invariant |values| == j
      invariant forall k :: 0 <= k < j ==> values[k] == LastValue(items, date, value, dates[k])
    {
      values := values + [if dates[j] in byDate then Some(byDate[dates[j]]) else None];
    }
  }

  // ----- grouping worklogs by listing --------------------------------------

  /** The hours of the worklogs that share one listing (an issue, or a text). */
  class GroupedWorklog {
    var hours: real
    const description: Shiny
    const issue: Option<Id>

    constructor(w: Worklog)
      ensures hours == w.hours && description == ShinyDescription(w) && issue == w.issue
    {
      hours := w.hours;
      description := ShinyDescription(w);
      issue := w.issue;
    }

    method Add(w: Worklog)
      modifies this
      ensures hours == old(hours) + w.hours
    {
      hours := hours + w.hours;
    }
  }

  /** The issue a listing stands for. */
  function IssueOf(s: Shiny): Option<Id> {
    match s
    case LinkedIssue(id) => Some(id)
    case Description(_) => None
  }

  function Shinies(ws: seq<Worklog>): seq<Shiny> { MapSeq(ws, ShinyDescription) }

  function HoursOf(ws: seq<Worklog>): seq<real> { MapSeq(ws, (w: Worklog) => w.hours) }

  /** Each listing with its total hours, in order of first appearance. */
  function GroupTotals(ws: seq<Worklog>): seq<(Shiny, real)> {
    Totals(Dedup(Shinies(ws)), Shinies(ws), HoursOf(ws))
  }

  function ByHoursDesc(a: (Shiny, real), b: (Shiny, real)): bool { a.1 >= b.1 }

  /** `get_grouped_worklogs` as values: the groups sorted by hours, largest first, ties in first-appearance order. */
  function Grouped(ws: seq<Worklog>): seq<(Shiny, real)> {
    SortedTotals(Shinies(ws), HoursOf(ws), ByHoursDesc)
  }

  /**
   * The groups are sorted by hours, largest first; no listing has two
   * groups; every group is the listing of some worklog with the total
   * hours of the worklogs so listed; every worklog's listing has a group.
   */
  lemma GroupedSpec(ws: seq<Worklog>)
    ensures SortedBy(Grouped(ws), ByHoursDesc)
    ensures DistinctBy(Grouped(ws), Fst)
    ensures forall k :: 0 <= k < |Grouped(ws)| ==>
      Grouped(ws)[k].0 in Shinies(ws) && Grouped(ws)[k].1 == SumWhere(Shinies(ws), HoursOf(ws), Grouped(ws)[k].0)
    ensures forall i :: 0 <= i < |ws| ==> exists k :: 0 <= k < |Grouped(ws)| && Grouped(ws)[k].0 == ShinyDescription(ws[i])
  {
    var keys, vals, g := Shinies(ws), HoursOf(ws), Grouped(ws);
    SortSorted(GroupTotals(ws), ByHoursDesc);
    SortedTotalsDistinct(keys, vals, ByHoursDesc);
    forall k | 0 <= k < |g| ensures g[k].0 in keys && g[k].1 == SumWhere(keys, vals, g[k].0) {
      SortedTotalsAt(keys, vals, ByHoursDesc, k);
    }
    forall i | 0 <= i < |ws| ensures exists k :: 0 <= k < |g| && g[k].0 == ShinyDescription(ws[i]) {
      var k := SortedTotalsCover(keys, vals, ByHoursDesc, i);
    }
  }

  /** Grouping loses no time: the group hours add up to the worklog hours. */
  lemma GroupedHours(ws: seq<Worklog>)
    ensures SumOf(Grouped(ws), Snd) == Sum(HoursOf(ws))
  {
    SortedTotalsSum(Shinies(ws), HoursOf(ws), ByHoursDesc);
  }

  /** The first half of `get_grouped_worklogs`: one object per listing, in a dict. */
  method CollectGroups(ws: seq<Worklog>) returns (order: seq<Shiny>, index: map<Shiny, GroupedWorklog>)
    ensures order == Dedup(Shinies(ws))
    ensures forall s :: s in index <==> s in order
    ensures forall s :: s in index ==> fresh(index[s])
    ensures forall s :: s in index ==> index[s].description == s && index[s].issue == IssueOf(s)
    ensures forall s :: s in index ==> index[s].hours == SumWhere(Shinies(ws), HoursOf(ws), s)
    ensures forall s, s' :: s in index && s' in index && s != s' ==> index[s] != index[s']
  {
    var keys, vals := Shinies(ws), HoursOf(ws);
    order, index := [], map[];
    for i := 0 to |ws|
      invariant order == Dedup(keys[..i])
      invariant forall s :: s in index <==> s in order
      invariant forall s :: s in index ==> fresh(index[s])
      invariant forall s :: s in index ==> index[s].description == s && index[s].issue == IssueOf(s)
      invariant forall s :: s in index ==> index[s].hours == SumWhere(keys[..i], vals[..i], s)
    {
      var w := ws[i];
      var text := ShinyDescription(w);
      if text in index {
        AddToGroup(index, w, keys, vals, i);
        SumWherePrefix(keys, vals, i);
      } else {
        var g := new GroupedWorklog(w);
        SumWherePrefix(keys, vals, i);
        SumWhereAbsent(keys[..i], vals[..i], text);
        index := index[text := g];
        order := order + [text];
      }
    }
    assert keys[..|ws|] == keys && vals[..|ws|] == vals;
  }

  /** `groups[text].add(w)`: the worklog's hours go to its own group and to no other. */
  method AddToGroup(index: map<Shiny, GroupedWorklog>, w: Worklog, ghost keys: seq<Shiny>, ghost vals: seq<real>,
                    ghost i: nat)
    requires i < |keys| == |vals| && keys[i] == ShinyDescription(w) && vals[i] == w.hours
    requires ShinyDescription(w) in index
    requires forall s :: s in index ==> index[s].description == s
    requires forall s :: s in index ==> index[s].hours == SumWhere(keys[..i], vals[..i], s)
    modifies index[ShinyDescription(w)]
    ensures forall s :: s in index ==> index[s].hours == SumWhere(keys[..i + 1], vals[..i + 1], s)
  {
    SumWherePrefix(keys, vals, i);
    var g := index[ShinyDescription(w)];
    g.Add(w);
    forall s | s in index ensures index[s].hours == SumWhere(keys[..i + 1], vals[..i + 1], s) {
      if s != ShinyDescription(w) {
        assert index[s].description != g.description;
      }
    }
  }

  /** `groups.values()` with each group's hours, in insertion order. */
  method Snapshot(order: seq<Shiny>, index: map<Shiny, GroupedWorklog>) returns (pairs: seq<(GroupedWorklog, real)>)
    requires forall s :: s in order ==> s in index
    ensures |pairs| == |order|
    ensures forall m :: 0 <= m < |order| ==> pairs[m] == (index[order[m]], index[order[m]].hours)
  {
    pairs := [];
    for m := 0 to |order|
      invariant |pairs| == m
      invariant forall k :: 0 <= k < m ==> pairs[k] == (index[order[k]], index[order[k]].hours)
    {
      pairs := pairs + [(index[order[m]], index[order[m]].hours)];
    }
  }

  function ObjByHoursDesc(a: (GroupedWorklog, real), b: (GroupedWorklog, real)): bool { a.1 >= b.1 }

  function Listing(p: (GroupedWorklog, real)): (Shiny, real) { (p.0.description, p.1) }

  function Obj(p: (GroupedWorklog, real)): GroupedWorklog { p.0 }

  /**
   * `Report.get_grouped_worklogs`: groups the worklogs by listing and sorts
   * the groups by hours, largest first; the objects carry `Grouped(ws)`.
   */
  method GetGroupedWorklogs(ws: seq<Worklog>) returns (groups: seq<GroupedWorklog>)
    ensures |groups| == |Grouped(ws)|
    ensures forall k :: 0 <= k < |groups| ==>
      groups[k].description == Grouped(ws)[k].0 && groups[k].hours == Grouped(ws)[k].1
    ensures forall k :: 0 <= k < |groups| ==> fresh(groups[k]) && groups[k].issue == IssueOf(groups[k].description)
  {
    var order, index := CollectGroups(ws);
    var pairs := Snapshot(order, index);
    var sorted := Sort(pairs, ObjByHoursDesc);
    groups := MapSeq(sorted, Obj);
    SnapshotListings(ws, order, index, pairs);
    SortedListing(pairs, ws);
    forall k | 0 <= k < |groups|
      ensures groups[k].description == Grouped(ws)[k].0 && groups[k].hours == Grouped(ws)[k].1
      ensures fresh(groups[k]) && groups[k].issue == IssueOf(groups[k].description)
    {
      var m := SortedFrom(pairs, ObjByHoursDesc, k);
      assert Listing(sorted[k]) == Grouped(ws)[k];
    }
  }

  /** The snapshot of the collected groups carries the group totals, in first-appearance order. */
  lemma SnapshotListings(ws: seq<Worklog>, order: seq<Shiny>, index: map<Shiny, GroupedWorklog>,
                         pairs: seq<(GroupedWorklog, real)>)
    requires order == Dedup(Shinies(ws)) && forall s :: s in order ==> s in index
    requires forall s :: s in index ==> index[s].description == s
    requires forall s :: s in index ==> index[s].hours == SumWhere(Shinies(ws), HoursOf(ws), s)
    requires |pairs| == |order|
    requires forall m :: 0 <= m < |order| ==> pairs[m] == (index[order[m]], index[order[m]].hours)
    ensures MapSeq(pairs, Listing) == GroupTotals(ws)
  {
    var t := GroupTotals(ws);
    forall m | 0 <= m < |pairs| ensures Listing(pairs[m]) == t[m] {
      assert t[m] == (order[m], SumWhere(Shinies(ws), HoursOf(ws), order[m]));
    }
  }

  /** Sorting the snapshot sorts the listings it carries. */
  lemma SortedListing(pairs: seq<(GroupedWorklog, real)>, ws: seq<Worklog>)
    requires MapSeq(pairs, Listing) == GroupTotals(ws)
    ensures |Sort(pairs, ObjByHoursDesc)| == |Grouped(ws)|
    ensures forall k :: 0 <= k < |Grouped(ws)| ==> Listing(Sort(pairs, ObjByHoursDesc)[k]) == Grouped(ws)[k]
  {
    SortMap(pairs, Listing, ObjByHoursDesc, ByHoursDesc);
  }

  /** Every element of a sorted sequence comes from the input. */
  lemma SortedFrom<T>(s: seq<T>, le: (T, T) -> bool, k: nat) returns (m: nat)
    requires k < |Sort(s, le)|
    ensures m < |s| && Sort(s, le)[k] == s[m]
  {
    assert Sort(s, le)[k] in multiset(s);
    m :| 0 <= m < |s| && s[m] == Sort(s, le)[k];
  }

  // ----- bucketing by day ----------------------------------------------------

  /** The items dated `d`, in their original order. */
  function ByDay<T(==,!new)>(items: seq<T>, day: T -> int, d: int): seq<T> {
    Filter(items, x => day(x) == d)
  }

  /** A bucket holds exactly the items of its day, each as often as it occurs, in the original order. */
  lemma ByDaySpec<T(!new)>(items: seq<T>, day: T -> int, d: int, x: T)
    ensures x in ByDay(items, day, d) <==> x in items && day(x) == d
    ensures multiset(ByDay(items, day, d))[x] == if day(x) == d then multiset(items)[x] else 0
    ensures forall a, b :: a + b == items ==> ByDay(items, day, d) == ByDay(a, day, d) + ByDay(b, day, d)
  {
    FilterCount(items, x => day(x) == d, x);
    forall a, b | a + b == items ensures ByDay(items, day, d) == ByDay(a, day, d) + ByDay(b, day, d) {
      FilterConcat(a, b, x => day(x) == d);
    }
  }

  lemma ByDaySnoc<T(!new)>(items: seq<T>, x: T, day: T -> int, d: int)
    ensures ByDay(items + [x], day, d) == ByDay(items, day, d) + (if day(x) == d then [x] else [])
  {
    assert (items + [x])[..|items|] == items;
  }

  /** One bucket per day of `days`. */
  function Buckets<T(==,!new)>(items: seq<T>, day: T -> int, days: seq<int>): (r: seq<seq<T>>)
    ensures |r| == |days| && forall i :: 0 <= i < |days| ==> r[i] == ByDay(items, day, days[i])
  {
    seq(|days|, i requires 0 <= i < |days| => ByDay(items, day, days[i]))
  }

  /**
   * The loop of `calc_tracker_stats` / `calc_gitlab_stats`: a dict from day
   * to the list of that day's items, read back for each day of `days`
   * (an empty list for a day without items).
   */
  method Bucket<T(==,!new)>(items: seq<T>, day: T -> int, days: seq<int>) returns (buckets: seq<seq<T>>)
    ensures buckets == Buckets(items, day, days)
  {
    var byDay := IndexByDay(items, day);
    buckets := [];
    for j := 0 to |days|
      invariant |buckets| == j
      invariant forall k :: 0 <= k < j ==> buckets[k] == ByDay(items, day, days[k])
    {
      var b := if days[j] in byDay then byDay[days[j]] else [];
      assert b == ByDay(items, day, days[j]);
      buckets := buckets + [b];
    }
    BucketsByIndex(buckets, items, day, days);
  }

  lemma BucketsByIndex<T(!new)>(buckets: seq<seq<T>>, items: seq<T>, day: T -> int, days: seq<int>)
    requires |buckets| == |days| && forall k :: 0 <= k < |days| ==> buckets[k] == ByDay(items, day, days[k])
    ensures buckets == Buckets(items, day, days)
  {
  }

  /** The dict of the loop above: each day's items, in order, under that day. */
  method IndexByDay<T(==,!new)>(items: seq<T>, day: T -> int) returns (byDay: map<int, seq<T>>)
    ensures forall d :: ByDay(items, day, d) == if d in byDay then byDay[d] else []
  {
    byDay := map[];
    for i := 0 to |items|
      invariant forall d :: ByDay(items[..i], day, d) == if d in byDay then byDay[d] else []
    {
      assert items[..i + 1] == items[..i] + [items[i]];
      forall d ensures ByDay(items[..i + 1], day, d) == ByDay(items[..i], day, d) + (if day(items[i]) == d then [items[i]] else []) {
        ByDaySnoc(items[..i], items[i], day, d);
      }
      var d := day(items[i]);
      if d !in byDay {
        byDay := byDay[d := [items[i]]];
      } else {
        byDay := byDay[d := byDay[d] + [items[i]]];
      }
    }
    assert items[..|items|] == items;
  }

  // ----- the report ------------------------------------------------------------

  function Ge(a: int, b: int): bool { a >= b }

  /** `sorted(iterate_dates(a, b), reverse=True)` is the window from its last day down to its first. */
  lemma {:induction false} SortedDates(lo: int, hi: int)
    requires lo <= hi + 1
    ensures |Sort(DateRange(lo, hi), Ge)| == |DateRange(lo, hi)|
    ensures forall k :: 0 <= k < |DateRange(lo, hi)| ==> Sort(DateRange(lo, hi), Ge)[k] == hi - k
    decreases hi - lo
  {
    if lo <= hi {
      var s := DateRange(lo, hi);
      assert s[1..] == DateRange(lo + 1, hi);
      SortedDates(lo + 1, hi);
      var t := Sort(DateRange(lo + 1, hi), Ge);
      InsertLast(lo, t, Ge);
    }
  }

  function WorkDate(w: Worklog): int { w.workDate }

  function CreatedDay(c: GitCommit): int { c.createdDay }

  function CommitTitle(c: GitCommit): string { c.title }

  /** The `user_profile` filter of `calc_tracker_stats` over the rows `between` returns. */
  function TrackerRows(rows: seq<Worklog>, p: Id): seq<Worklog> {
    Filter(rows, (w: Worklog) => w.profile == Some(p))
  }

  /** The query of `calc_gitlab_stats`: dated within `[lo, hi]`, authored or committed by `p`. */
  function GitlabRows(rows: seq<GitCommit>, p: Id, lo: int, hi: int): seq<GitCommit> {
    Filter(rows, (c: GitCommit) => lo <= c.createdDay <= hi && (c.authorProfile == Some(p) || c.committerProfile == Some(p)))
  }

  function AddsOf(cs: seq<GitCommit>): int {
    if cs == [] then 0 else AddsOf(cs[..|cs| - 1]) + cs[|cs| - 1].additions.GetOr(0)
  }

  /** `sum(c.deletions or 0 for c in commits)`, the total of deleted lines. */
  function DeletedLines(cs: seq<GitCommit>): int {
    if cs == [] then 0 else DeletedLines(cs[..|cs| - 1]) + cs[|cs| - 1].deletions.GetOr(0)
  }

  /**
   * `sum([-c.deletions or 0 for c in commits])` as written: the unary minus
   * binds tighter than `or`, so a commit without a deletion count raises
   * TypeError, and otherwise `-d or 0` is `-d`.
   */
  function GitlabDelsAsWritten(cs: seq<GitCommit>): (r: Result<int>)
    ensures r.Err? <==> exists k :: 0 <= k < |cs| && cs[k].deletions.None?
  {
    if cs == [] then Ok(0)
    else
      var n := |cs| - 1;
      var init := GitlabDelsAsWritten(cs[..n]);
      assert init.Err? <==> exists k :: 0 <= k < n && cs[k].deletions.None? by {
        forall k | 0 <= k < n ensures cs[..n][k] == cs[k] { }
      }
      match cs[n].deletions
      case None => Err(TypeFailure("bad operand type for unary -: 'NoneType'"))
      case Some(d) => if init.Err? then init else Ok(init.value - d)
  }

  /** The evidently intended `sum([-(c.deletions or 0) for c in commits])`. */
  function GitlabDels(cs: seq<GitCommit>): int {
    if cs == [] then 0 else GitlabDels(cs[..|cs| - 1]) - cs[|cs| - 1].deletions.GetOr(0)
  }

  /** A single commit without a deletion count makes the summary raise. */
  lemma GitlabDelsAsWrittenFails(c: GitCommit)
    requires c.deletions.None?
    ensures GitlabDelsAsWritten([c]).Err?
    ensures GitlabDels([c]) == 0
  {
    assert [c][..0] == [];
  }

  /**
   * The corrected sum never fails, is minus the deleted lines, and agrees
   * with the code as written wherever that does not raise.
   */
  lemma {:induction false} GitlabDelsSpec(cs: seq<GitCommit>)
    ensures GitlabDels(cs) == -DeletedLines(cs)
    ensures GitlabDelsAsWritten(cs).Ok? ==> GitlabDelsAsWritten(cs).value == GitlabDels(cs)
  {
    if cs != [] {
      GitlabDelsSpec(cs[..|cs| - 1]);
    }
  }

  predicate IsWeekend(d: int) { Weekday(d) == 5 || Weekday(d) == 6 }

  /** The dict `calc_summary` builds for one day. */
  datatype DaySummary = DaySummary(
    date: int,
    isWeekend: bool,
    gitlabCommits: seq<GitCommit>,
    gitlabText: seq<string>,
    gitlabAdds: int,
    gitlabDels: int,
    trackerWorklogs: seq<Worklog>,
    trackerGrouped: seq<(Shiny, real)>,
    trackerText: seq<Shiny>,
    trackerHours: real)

  function DayOf(date: int, ws: seq<Worklog>, cs: seq<GitCommit>): DaySummary {
    var g := Grouped(ws);
    DaySummary(date, IsWeekend(date), cs, MapSeq(cs, CommitTitle), AddsOf(cs), GitlabDels(cs),
      ws, g, MapSeq(g, Fst), SumOf(g, Snd))
  }

  /**
   * A day is a weekend day exactly on Saturday and Sunday; its tracked hours
   * are all the hours of its worklogs; its listings are distinct.
   */
  lemma DayOfSpec(date: int, ws: seq<Worklog>, cs: seq<GitCommit>)
    ensures DayOf(date, ws, cs).isWeekend <==> Weekday(date) >= 5
    ensures DayOf(date, ws, cs).trackerHours == Sum(HoursOf(ws))
    ensures Distinct(DayOf(date, ws, cs).trackerText)
    ensures DayOf(date, ws, cs).gitlabDels == -DeletedLines(cs)
  {
    GroupedHours(ws);
    SortedTotalsDistinct(Shinies(ws), HoursOf(ws), ByHoursDesc);
    GitlabDelsSpec(cs);
    var g := Grouped(ws);
    var texts := MapSeq(g, Fst);
    forall i, j | 0 <= i < j < |texts| ensures texts[i] != texts[j] {
      assert Fst(g[i]) != Fst(g[j]);
    }
  }

  lemma GroupedStep(g: seq<(Shiny, real)>, k: nat)
    requires k < |g|
    ensures g[..k + 1] == g[..k] + [g[k]]
    ensures MapSeq(g[..k + 1], Fst) == MapSeq(g[..k], Fst) + [g[k].0]
    ensures SumOf(g[..k + 1], Snd) == SumOf(g[..k], Snd) + g[k].1
  {
    assert g[..k + 1][..k] == g[..k];
  }

  /** One day of `calc_summary`, with the grouped worklogs as objects. */
  method DaySummaryOf(date: int, ws: seq<Worklog>, cs: seq<GitCommit>) returns (d: DaySummary)
    ensures d == DayOf(date, ws, cs)
  {
    var groups := GetGroupedWorklogs(ws);
    ghost var g := Grouped(ws);
    var grouped: seq<(Shiny, real)> := [];
    var texts: seq<Shiny> := [];
    var hours := 0.0;
    for k := 0 to |groups|
      invariant grouped == g[..k] && texts == MapSeq(g[..k], Fst)
      invariant hours == SumOf(g[..k], Snd)
      invariant forall j :: 0 <= j < |groups| ==> (groups[j].description, groups[j].hours) == g[j]
    {
      var text, spent := groups[k].description, groups[k].hours;
      GroupedStep(g, k);
      grouped := grouped + [(text, spent)];
      texts := texts + [text];
      hours := hours + spent;
    }
    assert g[..|groups|] == g;
    d := DaySummary(date, Weekday(date) == 5 || Weekday(date) == 6, cs, MapSeq(cs, CommitTitle),
      AddsOf(cs), GitlabDels(cs), ws, grouped, texts, hours);
  }

  function DaySummaries(days: seq<int>, tracker: seq<seq<Worklog>>, gitlab: seq<seq<GitCommit>>): (r: seq<DaySummary>)
    requires |tracker| == |days| && |gitlab| == |days|
    ensures |r| == |days| && forall i :: 0 <= i < |days| ==> r[i] == DayOf(days[i], tracker[i], gitlab[i])
  {
    seq(|days|, i requires 0 <= i < |days| => DayOf(days[i], tracker[i], gitlab[i]))
  }

  /**
   * `Report`: built for one profile and one window from the rows the two
   * queries return (`Worklog.objects.between(...)` ordered by date and
   * start time, and the stored commits in query order).
   */
  class Report {
    const userProfile: Id
    const fromDate: int
    const toDate: int
    var datesList: seq<int>
    var trackerWorklogs: seq<seq<Worklog>>
    var gitlabCommits: seq<seq<GitCommit>>
    var summary: seq<DaySummary>

    constructor(userProfile: Id, fromDate: int, toDate: int, worklogRows: seq<Worklog>, commitRows: seq<GitCommit>)
      ensures this.userProfile == userProfile && this.fromDate == fromDate && this.toDate == toDate
      ensures |datesList| == |Window(fromDate, toDate)|
      ensures forall k :: 0 <= k < |datesList| ==> datesList[k] == Max(fromDate, toDate) - k
      ensures trackerWorklogs == Buckets(TrackerRows(worklogRows, userProfile), WorkDate, datesList)
      ensures gitlabCommits == Buckets(GitlabRows(commitRows, userProfile, fromDate, toDate), CreatedDay, datesList)
      ensures summary == DaySummaries(datesList, trackerWorklogs, gitlabCommits)
    {
      this.userProfile := userProfile;
      this.fromDate := fromDate;
      this.toDate := toDate;
      var window := IterateDates(fromDate, toDate);
      datesList := Sort(window, Ge);
      trackerWorklogs, gitlabCommits, summary := [], [], [];
      new;
      SortedDates(Min(fromDate, toDate), Max(fromDate, toDate));
      CalcTrackerStats(worklogRows);
      CalcGitlabStats(commitRows);
      CalcSummary();
    }

    method CalcTrackerStats(rows: seq<Worklog>)
      modifies this`trackerWorklogs
      ensures trackerWorklogs == old(trackerWorklogs) + Buckets(TrackerRows(rows, userProfile), WorkDate, datesList)
    {
      var buckets := Bucket(TrackerRows(rows, userProfile), WorkDate, datesList);
      trackerWorklogs := trackerWorklogs + buckets;
    }

    method CalcGitlabStats(rows: seq<GitCommit>)
      modifies this`gitlabCommits
      ensures gitlabCommits == old(gitlabCommits) + Buckets(GitlabRows(rows, userProfile, fromDate, toDate), CreatedDay, datesList)
    {
      var buckets := Bucket(GitlabRows(rows, userProfile, fromDate, toDate), CreatedDay, datesList);
      gitlabCommits := gitlabCommits + buckets;
    }

    method CalcSummary()
      requires |trackerWorklogs| == |datesList| && |gitlabCommits| == |datesList|
      modifies this`summary
      ensures summary == old(summary) + DaySummaries(datesList, trackerWorklogs, gitlabCommits)
    {
      ghost var before := summary;
      var days, tracker, gitlab := datesList, trackerWorklogs, gitlabCommits;
      ghost var all := DaySummaries(days, tracker, gitlab);
      for i := 0 to |days|
        invariant summary == before + all[..i]
      {
        var d := DaySummaryOf(days[i], tracker[i], gitlab[i]);
        PrefixStep(all, i);
        summary := summary + [d];
      }
      assert all[..|days|] == all;
    }
  }
}
