/**
 * The admin screens' own logic: the "Date Range" list filter on worklogs,
 * the per-user pie chart of an issue, the total hours worked on an issue,
 * and the linked-accounts column of a profile.
 */
module Admin {
  import opened Wrappers
  import opened Text
  import opened Collections
  import opened Dates
  import opened Models
  import opened BotViews

  // ----- the date range filter ----------------------------------------------------

  /** The filter's choices, as `(query value, caption)`. */
  const Lookups: seq<(string, string)> := [
    ("today", "Today"), ("yesterday", "Yesterday"), ("3days", "Last 3 days"),
    ("this_week", "Current week"), ("prev_week", "Previous week"), ("prev2_week", "Prev prev week"),
    ("prev3_week", "Prev prev prev week"), ("4weeks", "4 weeks")]

  const LookupCodes: seq<string> :=
    ["today", "yesterday", "3days", "this_week", "prev_week", "prev2_week", "prev3_week", "4weeks"]

  /** A condition on `work_date`. */
  datatype DateCond = OnDay(day: int) | Since(first: int) | HalfOpen(lo: int, hi: int)
  {
    predicate Holds(d: int) {
      match this
      case OnDay(x) => d == x
      case Since(x) => d >= x
      case HalfOpen(lo, hi) => lo <= d < hi
    }
  }

  /**
   * The condition `WeekListFilter.queryset` applies for the query value, with
   * today's ordinal `today`; None leaves the queryset as it is.
   */
  function Condition(value: Option<string>, today: int): Option<DateCond> {
    if value.None? || value.value == "" then None
    else
      var v := value.value;
      var monday := Monday(today);
      if v == "today" then Some(OnDay(today))
      else if v == "yesterday" then Some(OnDay(today - 1))
      else if v == "3days" then Some(Since(today - 2))
      else if v == "this_week" then Some(Since(monday))
      else if v == "prev_week" then Some(HalfOpen(monday - 7, monday))
      else if v == "prev2_week" then Some(HalfOpen(monday - 14, monday - 7))
      else if v == "prev3_week" then Some(HalfOpen(monday - 21, monday - 14))
      else if v == "4weeks" then Some(Since(monday - 21))
      else None
  }

  /** `WeekListFilter.queryset`: the rows, in order, that the chosen condition keeps. */
  function QuerySet(value: Option<string>, today: int, rows: seq<Worklog>): (r: seq<Worklog>)
    ensures |r| <= |rows|
    ensures forall w :: w in r <==> w in rows && (Condition(value, today).None? || Condition(value, today).value.Holds(w.workDate))
  {
    match Condition(value, today)
    case None => rows
    case Some(c) => Filter(rows, (w: Worklog) => c.Holds(w.workDate))
  }

  /**
   * A condition applies exactly for the eight listed query values; with no
   * value, an empty one or any other, the queryset comes back unchanged.
   */
  lemma ConditionDefined(value: Option<string>, today: int, rows: seq<Worklog>)
    ensures Condition(value, today).Some? <==> value.Some? && value.value in LookupCodes
    ensures Condition(value, today).None? ==> QuerySet(value, today, rows) == rows
  {
    if value.Some? && value.value in LookupCodes {
      var i :| 0 <= i < |LookupCodes| && LookupCodes[i] == value.value;
      assert value.value != "";
    }
  }

  /** `today`, `yesterday` and `3days`. */
  lemma ShortWindows(today: int, d: int)
    ensures Condition(Some("today"), today).Some? && (Condition(Some("today"), today).value.Holds(d) <==> d == today)
    ensures Condition(Some("yesterday"), today).Some?
            && (Condition(Some("yesterday"), today).value.Holds(d) <==> d == today - 1)
    ensures Condition(Some("3days"), today).Some? && (Condition(Some("3days"), today).value.Holds(d) <==> d >= today - 2)
  {
  }

  /** The query value of the `k`-th week before the current one. */
  function PrevCode(k: int): string
    requires 1 <= k <= 3
  {
    if k == 1 then "prev_week" else if k == 2 then "prev2_week" else "prev3_week"
  }

  /**
   * `prev_week`, `prev2_week` and `prev3_week` each keep one whole Monday to
   * Sunday week: the `k`-th before the current one.
   */
  lemma PrevWindowIsWeek(today: int, k: int, d: int)
    requires 1 <= k <= 3
    ensures Condition(Some(PrevCode(k)), today).Some?
    ensures Condition(Some(PrevCode(k)), today).value.Holds(d) <==> Monday(d) == Monday(today) - 7 * k
  {
    var m := Monday(today) - 7 * k;
    assert Condition(Some(PrevCode(k)), today) == Some(HalfOpen(m, m + 7));
    assert Weekday(m) == 0 by {
      assert (m + 6) % 7 == (Monday(today) + 6) % 7 by {
        assert m + 6 == (Monday(today) + 6) - 7 * k;
      }
    }
    MondayOf(m, d);
  }

  /**
   * The current week and the three before it do not overlap, and together
   * they are exactly what `4weeks` keeps.
   */
  lemma FourWeeksPartition(today: int, d: int)
    ensures var c := (v: string) => Condition(Some(v), today).Some? && Condition(Some(v), today).value.Holds(d);
      (c("4weeks") <==> c("this_week") || c("prev_week") || c("prev2_week") || c("prev3_week"))
      && !(c("this_week") && c("prev_week")) && !(c("this_week") && c("prev2_week"))
      && !(c("this_week") && c("prev3_week")) && !(c("prev_week") && c("prev2_week"))
      && !(c("prev_week") && c("prev3_week")) && !(c("prev2_week") && c("prev3_week"))
  {
  }

  // ----- the pie chart of an issue -------------------------------------------------

  /** Every worklog's profile is a stored one. */
  predicate ProfilesKnown(ws: seq<Worklog>, profiles: map<Id, UserProfile>) {
    forall w :: w in ws ==> w.profile.Some? ==> w.profile.value in profiles
  }

  /** The name a worklog is charted under: its profile's name, else its `user_name`. */
  function ChartName(w: Worklog, profiles: map<Id, UserProfile>): string
    requires w.profile.Some? ==> w.profile.value in profiles
  {
    if w.profile.Some? then profiles[w.profile.value].name else w.userName
  }

  function ChartNames(ws: seq<Worklog>, profiles: map<Id, UserProfile>): (r: seq<string>)
    requires ProfilesKnown(ws, profiles)
    ensures |r| == |ws| && forall k :: 0 <= k < |ws| ==> r[k] == ChartName(ws[k], profiles)
  {
    seq(|ws|, k requires 0 <= k < |ws| && ProfilesKnown(ws, profiles) => ChartName(ws[k], profiles))
  }

  /** `obj.worklog_set.all()`: the worklogs linked to issue `id`. */
  function IssueWorklogs(rows: seq<Worklog>, id: Id): seq<Worklog> {
    Filter(rows, (w: Worklog) => w.issue == Some(id))
  }

  /** `total_hours_worked`: the hours of the issue's worklogs, 0 when there are none. */
  function TotalHoursWorked(rows: seq<Worklog>, id: Id): real {
    Sum(HoursOf(IssueWorklogs(rows, id)))
  }

  /** What `pie_chart` shows: a placeholder text, or a pie with its title, values and labels. */
  datatype PieChart = Placeholder(text: string) | Chart(title: string, values: seq<real>, labels: seq<string>)

  /**
   * The chart of worklogs `ws` titled `title`: one slice per name in order of
   * first appearance, valued at that name's hours rounded by `round1`.
   */
  function PieOf(title: string, ws: seq<Worklog>, profiles: map<Id, UserProfile>, round1: real -> real): PieChart
    requires ProfilesKnown(ws, profiles)
  {
    var names := ChartNames(ws, profiles);
    var labels := Dedup(names);
    if labels == [] then Placeholder("Nothing to show")
    else Chart(title, Rounded(labels, names, HoursOf(ws), round1), labels)
  }

  /** Each label's total, rounded. */
  function Rounded(labels: seq<string>, names: seq<string>, hours: seq<real>, round1: real -> real): (r: seq<real>)
    requires |names| == |hours|
    ensures |r| == |labels| && forall k :: 0 <= k < |labels| ==> r[k] == round1(SumWhere(names, hours, labels[k]))
  {
    seq(|labels|, k requires 0 <= k < |labels| => round1(SumWhere(names, hours, labels[k])))
  }

  /** The chart is drawn exactly when the issue has worklogs. */
  lemma PieChartShown(title: string, ws: seq<Worklog>, profiles: map<Id, UserProfile>, round1: real -> real)
    requires ProfilesKnown(ws, profiles)
    ensures PieOf(title, ws, profiles, round1).Chart? <==> ws != []
    ensures ws == [] ==> PieOf(title, ws, profiles, round1) == Placeholder("Nothing to show")
  {
    var names := ChartNames(ws, profiles);
    if ws != [] {
      assert names[0] in names;
      assert names[0] in Dedup(names);
    }
  }

  /**
   * Each name appears once as a label, the labels are exactly the worklogs'
   * names, and each value is that name's hours rounded; unrounded, the slices add up
   * to the issue's total hours.
   */
  lemma {:induction false} PieChartSlices(title: string, ws: seq<Worklog>, profiles: map<Id, UserProfile>, round1: real -> real)
    requires ProfilesKnown(ws, profiles)
    ensures var p := PieOf(title, ws, profiles, round1);
      p.Chart? ==>
        p.title == title && Distinct(p.labels) && |p.values| == |p.labels|
        && (forall w :: w in ws ==> ChartName(w, profiles) in p.labels)
        && (forall k :: 0 <= k < |p.labels| ==> exists w :: w in ws && ChartName(w, profiles) == p.labels[k])
        && (forall k :: 0 <= k < |p.labels| ==>
              p.values[k] == round1(SumWhere(ChartNames(ws, profiles), HoursOf(ws), p.labels[k])))
        && SumOfGroups(p.labels, ChartNames(ws, profiles), HoursOf(ws)) == Sum(HoursOf(ws))
  {
    var names := ChartNames(ws, profiles);
    SumOfGroupsIsSum(names, HoursOf(ws));
    forall w | w in ws ensures ChartName(w, profiles) in Dedup(names) {
      var i :| 0 <= i < |ws| && ws[i] == w;
      assert names[i] == ChartName(w, profiles);
    }
    var labels := Dedup(names);
    forall k | 0 <= k < |labels| ensures exists w :: w in ws && ChartName(w, profiles) == labels[k] {
      assert labels[k] in names;
      var i :| 0 <= i < |names| && names[i] == labels[k];
      assert ws[i] in ws;
    }
  }

  /** The issue's chart, unrounded, adds up to `total_hours_worked`. */
  lemma PieChartTotal(rows: seq<Worklog>, id: Id, title: string, profiles: map<Id, UserProfile>, round1: real -> real)
    requires ProfilesKnown(IssueWorklogs(rows, id), profiles)
    ensures var ws := IssueWorklogs(rows, id);
      SumOfGroups(Dedup(ChartNames(ws, profiles)), ChartNames(ws, profiles), HoursOf(ws)) == TotalHoursWorked(rows, id)
  {
    var ws := IssueWorklogs(rows, id);
    SumOfGroupsIsSum(ChartNames(ws, profiles), HoursOf(ws));
  }

  /** The dict is empty exactly when there were no names to add. */
  lemma EmptyDict(order: seq<string>, dict: map<string, real>, names: seq<string>)
    requires order == Dedup(names) && forall k :: k in dict <==> k in names
    ensures dict == map[] <==> order == []
  {
    if order != [] {
      assert order[0] in names;
      assert order[0] in dict;
    } else {
      forall k ensures k !in dict {
        assert k in names ==> k in Dedup(names);
      }
    }
  }

  /** The loop over `user_dict.items()` filling `labels` and rounded `values`. */
  method ReadBack(order: seq<string>, dict: map<string, real>, names: seq<string>, hours: seq<real>, round1: real -> real)
    returns (labels: seq<string>, values: seq<real>)
    requires |names| == |hours|
    requires forall k :: k in order ==> k in dict && dict[k] == SumWhere(names, hours, k)
    ensures labels == order && values == Rounded(order, names, hours, round1)
  {
    labels, values := [], [];
    var i := 0;
    while i < |order|
      invariant 0 <= i <= |order| && labels == order[..i] && |values| == i
      invariant forall k :: 0 <= k < i ==> values[k] == round1(SumWhere(names, hours, order[k]))
    {
      labels := labels + [order[i]];
      values := values + [round1(dict[order[i]])];
      i := i + 1;
    }
    assert labels == order;
  }

  /**
   * `IssueAdmin.pie_chart`: the per-name dict is filled in worklog order,
   * then read back into labels and rounded values.
   */
  method PieChartOf(issue: Issue, rows: seq<Worklog>, id: Id, profiles: map<Id, UserProfile>, round1: real -> real)
    returns (r: PieChart)
    requires ProfilesKnown(IssueWorklogs(rows, id), profiles)
    ensures r == PieOf(issue.issueId, IssueWorklogs(rows, id), profiles, round1)
  {
    var ws := IssueWorklogs(rows, id);
    var names := ChartNames(ws, profiles);
    var order, userDict := SumByKey(names, HoursOf(ws));
    var labels, values := ReadBack(order, userDict, names, HoursOf(ws), round1);
    EmptyDict(order, userDict, names);
    if userDict != map[] {
      r := Chart(issue.issueId, values, labels);
    } else {
      r := Placeholder("Nothing to show");
    }
  }

  // ----- linked accounts ---------------------------------------------------------------

  /** The service-type names of `accounts`, in order. */
  function AccountNames(accounts: seq<ServiceAccount>): (r: seq<string>)
    ensures |r| == |accounts| && forall k :: 0 <= k < |accounts| ==> r[k] == accounts[k].serviceType.Name()
  {
    seq(|accounts|, k requires 0 <= k < |accounts| => accounts[k].serviceType.Name())
  }

  /** `obj.service_accounts.all()`: the accounts of profile `p`, in the order given. */
  function ProfileAccounts(accounts: seq<ServiceAccount>, p: Id): seq<ServiceAccount> {
    Filter(accounts, (a: ServiceAccount) => a.profile == p)
  }

  /** `UserProfileAdmin.linked_accounts`: the names collected in a loop, joined by `", "`. */
  method LinkedAccounts(accounts: seq<ServiceAccount>, p: Id) returns (r: string)
    ensures r == Join(AccountNames(ProfileAccounts(accounts, p)), ", ")
  {
    var own := ProfileAccounts(accounts, p);
    var names: seq<string> := [];
    var i := 0;
    while i < |own|
      invariant 0 <= i <= |own| && names == AccountNames(own[..i])
    {
      names := names + [own[i].serviceType.Name()];
      i := i + 1;
    }
    assert own[..i] == own;
    r := Join(names, ", ");
  }

  /** No service-type name holds a comma. */
  lemma NameHasNoComma(t: ServiceType)
    ensures ',' !in t.Name()
  {
    match t
    case System => assert t.Name() == ['s', 'y', 's', 't', 'e', 'm'];
    case Upwork => assert t.Name() == ['u', 'p', 'w', 'o', 'r', 'k'];
    case Hipchat => assert t.Name() == ['h', 'i', 'p', 'c', 'h', 'a', 't'];
    case Jira => assert t.Name() == ['j', 'i', 'r', 'a'];
    case Gitlab => assert t.Name() == ['g', 'i', 't', 'l', 'a', 'b'];
    case Github => assert t.Name() == ['g', 'i', 't', 'h', 'u', 'b'];
    case SMon => assert t.Name() == ['s', 'm', 'o', 'n'];
  }

  /** Joining comma-free parts with `", "` puts exactly one comma between neighbours. */
  lemma {:induction false} JoinCommas(xs: seq<string>)
    requires forall i :: 0 <= i < |xs| ==> ',' !in xs[i]
    ensures multiset(Join(xs, ", "))[','] == if xs == [] then 0 else |xs| - 1
    decreases |xs|
  {
    if |xs| > 1 {
      JoinCommas(xs[1..]);
      assert multiset(xs[0])[','] == 0;
      assert Join(xs, ", ") == xs[0] + ", " + Join(xs[1..], ", ");
      assert multiset(", ")[','] == 1 by {
        assert ", " == [','] + [' '];
      }
    } else if |xs| == 1 {
      assert multiset(xs[0])[','] == 0;
    }
  }

  /** The column lists one name per linked account: it holds one comma fewer than there are accounts. */
  lemma LinkedAccountsCount(accounts: seq<ServiceAccount>, p: Id)
    ensures var own := ProfileAccounts(accounts, p);
      multiset(Join(AccountNames(own), ", "))[','] == if own == [] then 0 else |own| - 1
  {
    var names := AccountNames(ProfileAccounts(accounts, p));
    forall i | 0 <= i < |names| ensures ',' !in names[i] {
      NameHasNoComma(ProfileAccounts(accounts, p)[i].serviceType);
    }
    JoinCommas(names);
  }
}
