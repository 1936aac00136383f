/**
 * The command actions: the date window a command runs over, and the
 * missing-memo report, which sums per user the hours logged without a
 * description. Dates are day ordinals; `today` is an input.
 */
module Actions {
  import opened Wrappers
  import opened Text
  import opened Collections
  import opened Dates
  import opened Models
  import opened BotViews

  // ----- the date window ---------------------------------------------------

  /** The options the window depends on; an absent flag is `false`, an absent value None. */
  datatype DateOptions = DateOptions(
    today: bool,
    yesterday: bool,
    thisWeek: bool,
    prevWeek: bool,
    lastDays: Option<int>,
    fromDate: Option<int>,
    toDate: Option<int>)

  /** `options.get('last_days')` is truthy: present and not zero. */
  predicate LastDaysSet(o: DateOptions) {
    o.lastDays.Some? && o.lastDays.value != 0
  }

  /** The `(from_date, to_date)` that `BaseDateAction.handle` passes to `handle_dates`. */
  function DateWindow(today: int, o: DateOptions): (int, int) {
    var monday := Monday(today);
    if o.today then (today, today)
    else if o.yesterday then (today - 1, today - 1)
    else if o.thisWeek then (monday, today)
    else if o.prevWeek then (monday - 7, monday - 1)
    else if LastDaysSet(o) then (today - (o.lastDays.value - 1), today)
    else (o.fromDate.GetOr(today), o.toDate.GetOr(today))
  }

  /** The days the action covers. */
  function Days(today: int, o: DateOptions): seq<int> {
    var (a, b) := DateWindow(today, o);
    Window(a, b)
  }

  /** `today` wins over every other option: the window is today alone. */
  lemma TodayWindow(today: int, o: DateOptions)
    requires o.today
    ensures Days(today, o) == [today]
  {
  }

  /** `yesterday` wins over all but `today`: the window is the day before today. */
  lemma YesterdayWindow(today: int, o: DateOptions)
    requires !o.today && o.yesterday
    ensures Days(today, o) == [today - 1]
  {
  }

  /** `this_week`: the days of today's week up to today, at most seven. */
  lemma ThisWeekWindow(today: int, o: DateOptions)
    requires !o.today && !o.yesterday && o.thisWeek
    ensures forall d :: d in Days(today, o) <==> Monday(d) == Monday(today) && d <= today
    ensures 1 <= |Days(today, o)| <= 7 && Days(today, o)[|Days(today, o)| - 1] == today
  {
    var m := Monday(today);
    WindowSpec(m, today);
    forall d ensures d in Days(today, o) <==> Monday(d) == m && d <= today {
      MondayOf(m, d);
    }
  }

  /** `prev_week`: the seven days of the week before today's. */
  lemma PrevWeekWindow(today: int, o: DateOptions)
    requires !o.today && !o.yesterday && !o.thisWeek && o.prevWeek
    ensures forall d :: d in Days(today, o) <==> Monday(d) == Monday(today) - 7
    ensures |Days(today, o)| == 7 && Days(today, o)[6] == Monday(today) - 1
  {
    var m := Monday(today) - 7;
    WindowSpec(m, m + 6);
    assert Weekday(m) == 0;
    forall d ensures d in Days(today, o) <==> Monday(d) == m {
      MondayOf(m, d);
    }
  }

  /** `last_days=N` for a positive N: the N days ending today. */
  lemma LastDaysWindow(today: int, o: DateOptions)
    requires !o.today && !o.yesterday && !o.thisWeek && !o.prevWeek && LastDaysSet(o)
    requires o.lastDays.value > 0
    ensures |Days(today, o)| == o.lastDays.value
    ensures Days(today, o)[o.lastDays.value - 1] == today
    ensures forall d :: d in Days(today, o) <==> today - o.lastDays.value < d <= today
  {
    WindowSpec(today - (o.lastDays.value - 1), today);
  }

  /** Without a window flag, the given `from_date` and `to_date`, each defaulting to today. */
  lemma ExplicitWindow(today: int, o: DateOptions)
    requires !o.today && !o.yesterday && !o.thisWeek && !o.prevWeek && !LastDaysSet(o)
    ensures Days(today, o) == Window(o.fromDate.GetOr(today), o.toDate.GetOr(today))
    ensures o.fromDate.None? && o.toDate.None? ==> Days(today, o) == [today]
  {
  }

  // ----- the missing-memo report -------------------------------------------------

  /** The rows of the query: worklogs whose profile is stored and active. */
  function ActiveRows(rows: seq<Worklog>, profiles: map<Id, UserProfile>): seq<Worklog> {
    Filter(rows, (w: Worklog) => w.profile.Some? && w.profile.value in profiles && profiles[w.profile.value].active)
  }

  /** `w.user_profile and not w.description`. */
  predicate MissingMemo(w: Worklog) {
    w.profile.Some? && w.description == ""
  }

  /** The profile of each worklog without a memo, in order. */
  function MemoKeys(ws: seq<Worklog>): seq<Id> {
    if ws == [] then []
    else
      var n := |ws| - 1;
      MemoKeys(ws[..n]) + (if MissingMemo(ws[n]) then [ws[n].profile.value] else [])
  }

  /** The keys are exactly the profiles of the worklogs without a memo. */
  lemma {:induction false} MemoKeysMembers(ws: seq<Worklog>)
    ensures forall k :: k in MemoKeys(ws) <==> exists i :: 0 <= i < |ws| && MissingMemo(ws[i]) && ws[i].profile.value == k
  {
    if ws != [] {
      var n := |ws| - 1;
      MemoKeysMembers(ws[..n]);
      assert forall i :: 0 <= i < n ==> ws[..n][i] == ws[i];
    }
  }

  /** The hours of each worklog without a memo, in order. */
  function MemoHours(ws: seq<Worklog>): (r: seq<real>)
    ensures |r| == |MemoKeys(ws)|
  {
    if ws == [] then []
    else
      var n := |ws| - 1;
      MemoHours(ws[..n]) + (if MissingMemo(ws[n]) then [ws[n].hours] else [])
  }

  function NameOf(profiles: map<Id, UserProfile>, id: Id): string {
    if id in profiles then profiles[id].name else ""
  }

  /** The order of `sorted(..., key=lambda x: x[0].name)`. */
  function ByName(profiles: map<Id, UserProfile>): ((Id, real), (Id, real)) -> bool {
    (a: (Id, real), b: (Id, real)) => LexLe(NameOf(profiles, a.0), NameOf(profiles, b.0))
  }

  /** `'No problems found'`, or the per-user hours the template renders. */
  datatype MissingMemoReport = NoProblems | Timesheet(users: seq<(Id, real)>)

  function MissingMemoOf(rows: seq<Worklog>, profiles: map<Id, UserProfile>): MissingMemoReport {
    var ws := ActiveRows(rows, profiles);
    if MemoKeys(ws) == [] then NoProblems
    else Timesheet(SortedTotals(MemoKeys(ws), MemoHours(ws), ByName(profiles)))
  }

  /** The text the action returns when there is nothing to report. */
  function NoProblemsText(): string { "No problems found" }

  /** There is nothing to report exactly when no active user logged time without a memo. */
  lemma NoProblemsExactly(rows: seq<Worklog>, profiles: map<Id, UserProfile>)
    ensures MissingMemoOf(rows, profiles).NoProblems? <==>
      forall w :: w in rows && MissingMemo(w) ==> !(w.profile.value in profiles && profiles[w.profile.value].active)
  {
    var ws := ActiveRows(rows, profiles);
    MemoKeysMembers(ws);
    if MemoKeys(ws) != [] {
      var k := MemoKeys(ws)[0];
      assert k in MemoKeys(ws);
      var i :| 0 <= i < |ws| && MissingMemo(ws[i]) && ws[i].profile.value == k;
      assert ws[i] in ws;
    } else {
      forall w | w in rows && MissingMemo(w)
        ensures !(w.profile.value in profiles && profiles[w.profile.value].active)
      {
        assert (w.profile.value in profiles && profiles[w.profile.value].active) ==> w in ws;
        MemoKeysHave(ws, w);
      }
    }
  }

  /**
   * The timesheet is sorted by user name; it names each user once; each
   * user's hours are the hours of that user's worklogs without a memo; and
   * its hours add up to all such hours.
   */
  lemma TimesheetSpec(rows: seq<Worklog>, profiles: map<Id, UserProfile>)
    requires MissingMemoOf(rows, profiles).Timesheet?
    ensures SortedBy(MissingMemoOf(rows, profiles).users, ByName(profiles))
    ensures DistinctBy(MissingMemoOf(rows, profiles).users, Fst)
    ensures forall k :: 0 <= k < |MissingMemoOf(rows, profiles).users| ==>
      var (id, hours) := MissingMemoOf(rows, profiles).users[k];
      id in profiles && hours == SumWhere(MemoKeys(ActiveRows(rows, profiles)), MemoHours(ActiveRows(rows, profiles)), id)
    ensures SumOf(MissingMemoOf(rows, profiles).users, Snd) == Sum(MemoHours(ActiveRows(rows, profiles)))
  {
    var ws := ActiveRows(rows, profiles);
    MemoKeysMembers(ws);
    var keys, vals, le := MemoKeys(ws), MemoHours(ws), ByName(profiles);
    var t := Totals(Dedup(keys), keys, vals);
    assert TotalPreorderOn(t, le) by {
      forall x, y | x in t && y in t ensures le(x, y) || le(y, x) {
        LexLeTotal(NameOf(profiles, x.0), NameOf(profiles, y.0));
      }
      forall x, y, z | x in t && y in t && z in t && le(x, y) && le(y, z) ensures le(x, z) {
        LexLeTransitive(NameOf(profiles, x.0), NameOf(profiles, y.0), NameOf(profiles, z.0));
      }
    }
    SortSorted(t, le);
    SortedTotalsDistinct(keys, vals, le);
    SortedTotalsSum(keys, vals, le);
    var u := SortedTotals(keys, vals, le);
    forall k | 0 <= k < |u| ensures u[k].0 in profiles && u[k].1 == SumWhere(keys, vals, u[k].0) {
      SortedTotalsAt(keys, vals, le, k);
      var i :| 0 <= i < |ws| && MissingMemo(ws[i]) && ws[i].profile.value == u[k].0;
      assert ws[i] in rows && ws[i].profile.value in profiles;
    }
  }

  /**
   * The timesheet lists exactly the users with time logged without a memo:
   * a profile is listed exactly when it is active and some row of its has
   * no memo.
   */
  lemma TimesheetUsers(rows: seq<Worklog>, profiles: map<Id, UserProfile>)
    requires MissingMemoOf(rows, profiles).Timesheet?
    ensures forall id ::
      (exists k :: 0 <= k < |MissingMemoOf(rows, profiles).users| && MissingMemoOf(rows, profiles).users[k].0 == id)
      <==> (exists w :: w in rows && MissingMemo(w) && w.profile.value == id && id in profiles && profiles[id].active)
  {
    var ws := ActiveRows(rows, profiles);
    SortedTotalsKeys(MemoKeys(ws), MemoHours(ws), ByName(profiles));
    MemoKeysActive(rows, profiles);
  }

  /** The summed users are exactly the keys summed over. */
  lemma SortedTotalsKeys(keys: seq<Id>, vals: seq<real>, le: ((Id, real), (Id, real)) -> bool)
    requires |keys| == |vals|
    ensures forall id ::
      (exists k :: 0 <= k < |SortedTotals(keys, vals, le)| && SortedTotals(keys, vals, le)[k].0 == id) <==> id in keys
  {
    var u := SortedTotals(keys, vals, le);
    forall id ensures (exists k :: 0 <= k < |u| && u[k].0 == id) <==> id in keys {
      if id in keys {
        var i :| 0 <= i < |keys| && keys[i] == id;
        var k := SortedTotalsCover(keys, vals, le, i);
      }
      if exists k :: 0 <= k < |u| && u[k].0 == id {
        var k :| 0 <= k < |u| && u[k].0 == id;
        SortedTotalsAt(keys, vals, le, k);
      }
    }
  }

  /** The profiles of the active rows without a memo are the active profiles with a row without a memo. */
  lemma MemoKeysActive(rows: seq<Worklog>, profiles: map<Id, UserProfile>)
    ensures forall id :: id in MemoKeys(ActiveRows(rows, profiles)) <==>
      (exists w :: w in rows && MissingMemo(w) && w.profile.value == id && id in profiles && profiles[id].active)
  {
    var ws := ActiveRows(rows, profiles);
    MemoKeysMembers(ws);
    forall id ensures id in MemoKeys(ws) <==>
      (exists w :: w in rows && MissingMemo(w) && w.profile.value == id && id in profiles && profiles[id].active)
    {
      if id in MemoKeys(ws) {
        var i :| 0 <= i < |ws| && MissingMemo(ws[i]) && ws[i].profile.value == id;
        assert ws[i] in ws;
      }
      if exists w :: w in rows && MissingMemo(w) && w.profile.value == id && id in profiles && profiles[id].active {
        var w :| w in rows && MissingMemo(w) && w.profile.value == id && id in profiles && profiles[id].active;
        assert w in ws;
        MemoKeysHave(ws, w);
      }
    }
  }

  /**
   * `IssueAction.handle_dates` over the query's rows (without the optional
   * sync and the template): sum the hours per profile of the worklogs
   * without a memo, then sort the users by name.
   */
  method HandleMissingMemo(rows: seq<Worklog>, profiles: map<Id, UserProfile>) returns (r: MissingMemoReport)
    ensures r == MissingMemoOf(rows, profiles)
  {
    var ws := ActiveRows(rows, profiles);
    var order, users := SumMissing(ws);
    assert users == map[] <==> order == [] by {
      if order != [] {
        assert order[0] in users;
      }
    }
    if users == map[] {
      return NoProblems;
    }
    var entries := UserEntries(order, users, MemoKeys(ws), MemoHours(ws));
    r := Timesheet(Sort(entries, ByName(profiles)));
  }

  /** The loop filling `users`: the profiles in first-appearance order and their summed hours. */
  method SumMissing(ws: seq<Worklog>) returns (order: seq<Id>, users: map<Id, real>)
    ensures order == Dedup(MemoKeys(ws))
    ensures forall k :: k in users <==> k in order
    ensures forall k :: k in users ==> users[k] == SumWhere(MemoKeys(ws), MemoHours(ws), k)
  {
    order, users := [], map[];
    ghost var keys: seq<Id>, vals: seq<real> := [], [];
    for i := 0 to |ws|
      invariant keys == MemoKeys(ws[..i]) && vals == MemoHours(ws[..i])
      invariant order == Dedup(keys)
      invariant forall k :: k in users <==> k in order
      invariant forall k :: k in users ==> users[k] == SumWhere(keys, vals, k)
    {
      var w := ws[i];
      MemoStep(ws, i);
      if w.profile.Some? && w.description == "" {
        var key := w.profile.value;
        UsersStep(keys, vals, key, w.hours);
        if key in users {
          users := users[key := users[key] + w.hours];
        } else {
          users := users[key := w.hours];
          order := order + [key];
        }
        keys, vals := keys + [key], vals + [w.hours];
      }
    }
    assert ws[..|ws|] == ws;
  }

  /** `users.values()` in insertion order. */
  method UserEntries(order: seq<Id>, users: map<Id, real>, keys: seq<Id>, vals: seq<real>) returns (entries: seq<(Id, real)>)
    requires |keys| == |vals|
    requires forall k :: k in order ==> k in users && users[k] == SumWhere(keys, vals, k)
    ensures entries == Totals(order, keys, vals)
  {
    entries := [];
    for m := 0 to |order|
      invariant entries == Totals(order[..m], keys, vals)
    {
      assert order[..m + 1][..m] == order[..m];
      entries := entries + [(order[m], users[order[m]])];
    }
    assert order[..|order|] == order;
  }

  lemma MemoKeysHave(ws: seq<Worklog>, w: Worklog)
    ensures w in ws && MissingMemo(w) ==> w.profile.value in MemoKeys(ws)
  {
    if w in ws && MissingMemo(w) {
      var i :| 0 <= i < |ws| && ws[i] == w;
      MemoKeysMembers(ws);
    }
  }

  lemma MemoStep(ws: seq<Worklog>, i: nat)
    requires i < |ws|
    ensures MemoKeys(ws[..i + 1]) == MemoKeys(ws[..i]) + (if MissingMemo(ws[i]) then [ws[i].profile.value] else [])
    ensures MemoHours(ws[..i + 1]) == MemoHours(ws[..i]) + (if MissingMemo(ws[i]) then [ws[i].hours] else [])
  {
    assert ws[..i + 1][..i] == ws[..i];
  }

  /** One more worklog without a memo: how the keys in first-appearance order and the per-key sums change. */
  lemma UsersStep(keys: seq<Id>, vals: seq<real>, key: Id, h: real)
    requires |keys| == |vals|
    ensures Dedup(keys + [key]) == if key in keys then Dedup(keys) else Dedup(keys) + [key]
    ensures forall k :: SumWhere(keys + [key], vals + [h], k) == SumWhere(keys, vals, k) + (if k == key then h else 0.0)
    ensures key !in keys ==> SumWhere(keys, vals, key) == 0.0
  {
    assert (keys + [key])[..|keys|] == keys && (vals + [h])[..|vals|] == vals;
    if key !in keys {
      SumWhereAbsent(keys, vals, key);
    }
  }
}
