# teambot worklog engine, in Dafny

A model of the worklog ingestion and reporting core of teambot. teambot is a Django application. It collects time-tracking records from three sources:

- Upwork team reports;
- Screenshot Monitor (SMon) activities;
- Jira worklogs.

It stores them as `Worklog` rows and links each row to a user profile, through a service account, and to a Jira issue, through the ticket key found in its memo. It also imports GitLab commits and renders per-user dashboards, standup summaries and timesheet messages.

One Dafny module stands for each source file:

| module | file | what it holds |
|---|---|---|
| `Models` | `botapp/models.py`, `gitapp/models.py` | The record shapes and the database as a `Store` class. The store holds one map per table and the next free key. `Store.Valid()` carries the uniqueness constraints and foreign keys. The methods are the ORM operations the code uses. The on-delete rules are functions. |
| `JiraUtil` | `botapp/jira_util.py` | The Jira issue JSON, the original estimate, and creating and refreshing a stored issue. |
| `Trackers` | `botapp/trackers.py` | Ticket-key parsing and the `IssueLoader` cache; the three per-source normalisers; the SMon request; the `sync_fetched_report` reconciliation loop; `AccountCreator`. |
| `AgileViews` | `agileapp/views.py` | `SummaryParser` (`chunks`, `parse_modifiers`, `parse`) and `reformat_with_jira`. |
| `AgileViewsExamples` | `botapp/tests/tests.py` | The parser's worked example. |
| `BotViews` | `botapp/views.py` | `iterate_dates`, `normalized_values`, `GroupedWorklog` and the `Report` class with its per-day buckets and summaries. |
| `Actions` | `botapp/actions.py` | The command date window and the missing-memo report. |
| `Outputs` | `botapp/outputs.py` | The output registry, the dot-padded timesheet lines and the Slack pipeline-status message. |
| `GitUtils` | `gitapp/git_utils.py` | The GitLab client over a server given as data, and `GitlabLoader` (commit import, profiles, pipeline schedules). |
| `Admin` | `botapp/admin.py` | The date-range list filter, the issue pie chart and the linked-accounts column. |

Shared modules:

- `Wrappers`: `Option`, `Result`, the error kinds, and `Stream`, the items a generator yields before it raises.
- `Text`: ASCII case folding, `\w`/`\d` classes, `strip`, `lstrip`, `join`, `str(n)`.
- `Dates`: day ordinals as `date.toordinal()`, `weekday()`, the Monday of a week, UTC dates of Unix seconds, and `strptime('%Y%m%d')`.
- `Patterns`: the regular expressions of the code as a closed set of shapes, with Python's leftmost, non-overlapping `search`, `split`, `findall` and `sub`.
- `Collections`: sums, insertion sort, filtering and per-key totals.

Dates are day ordinals and hours are reals. Everything outside the code is an input of the model:

- HTTP answers: Jira issues as a map from issue id to JSON, GitLab replies as maps from request to reply, the SMon POST as a function.
- `date.today()`.
- Float formatting.
- `strftime`.
- The row a `None` upsert key selects.

## Model

| member | source | states |
|---|---|---|
| Trackers.ParseIssueIsLeftmost | botapp/trackers.py:26-30 | `parse_issue` finds nothing exactly when no position of the text starts a `KEY-\d+` match |
| Trackers.ParseIssueFound | botapp/trackers.py:26-30 | when `re.search` stops at `j` with `n` characters, a key match starts at `j` and at no earlier position, and `parse_issue` returns `(jira, text[j:j+n].upper())` |
| Trackers.ParseIssueFindsTicket | botapp/trackers.py:27-30 | with at least one project key, what is found is a ticket key of a configured project: the key in any case, a dash, digits |
| Trackers.ParseIssueWithoutKeys | botapp/trackers.py:27-30 | with no project keys the joined pattern is empty and matches the empty text, so `(jira, '')` comes back |
| Trackers.ParseIssueUpperKey | botapp/tests/test_issue_loader.py:15-18 | `'BACK-193: hello world'` gives `(jira, 'BACK-193')` |
| Trackers.ParseIssueLowerKey | botapp/tests/test_issue_loader.py:20-23 | `'back-193: hello world'` gives `(jira, 'BACK-193')` |
| Trackers.ParseIssueBracketedKey | botapp/tests/test_issue_loader.py:25-28 | `'[iOS-193] hello world'` gives `(jira, 'IOS-193')` |
| Trackers.ParseIssueUnknownKey | botapp/tests/test_issue_loader.py:35-37 | `'[ABC-193] hello world'` gives None |
| Trackers.ResolveKeepsInvariants | botapp/trackers.py:40-64 | `get_issue` keeps the issue keys unique and the cache honest (every cached issue is stored under its key). It only adds or refreshes issues. A returned issue is the stored issue with the ticket key of the text |
| Trackers.ResolveWithoutTicket | botapp/trackers.py:41-43 | without a ticket key nothing is looked up, cached or created, and None is returned |
| Trackers.ResolveCacheHit | botapp/trackers.py:46-50 | a cached issue is returned as is. The store and the Jira answers are not consulted: the result is the same whatever they hold |
| Trackers.ResolveCachedNoneLooksAgain | botapp/trackers.py:47-48 | a cached None does not short-circuit: the outcome is that of a lookup without the cache entry |
| Trackers.ResolveErrorChangesNothing | botapp/trackers.py:52-62 | a Jira fetch that raises leaves the cache, the issue table and the key counter as they were |
| Trackers.ResolveWithoutAutoupdateKeepsIssues | botapp/trackers.py:53-59 | without `autoupdate` no stored issue changes; issues are only added |
| Trackers.ResolveStoredIssue | botapp/trackers.py:53-64 | a stored issue with the ticket key is returned and cached. With `autoupdate` it is first refreshed from the Jira answer; a failing fetch then raises instead |
| Trackers.ResolveMissingIssue | botapp/trackers.py:58-62 | a key not in the table is created from Jira under a fresh key and returned. When the JSON has no fields, None is cached and nothing is created |
| Trackers.IssueLoader.constructor | botapp/trackers.py:21-24 | a loader starts with an empty cache and the given `autoupdate` |
| Trackers.IssueLoader.GetIssue | botapp/trackers.py:40-64 | the method's result, cache, issue table and key counter are those of `ResolveIssue` from the old state. It keeps the store valid and the cache honest |
| Trackers.IssueLoader.LoadTicket | botapp/trackers.py:52-64 | a ticket not cached with an issue: the store, cache and result afterwards are those of `ResolveIssue`, and the cache gains the ticket exactly when no lookup raised |
| Trackers.IssueLoader.GetIssueFailsafe | botapp/trackers.py:32-38 | the result of `get_issue` when it does not raise, None when it does; the new state is that of `get_issue` either way |
| Trackers.UpworkNormalize | botapp/trackers.py:199-211 | an Upwork row is accepted exactly when its date column matches `strptime`'s `%Y%m%d` grammar and names a real date. The row has no `uniq_id` and no time range |
| Trackers.UpworkRowDate | botapp/trackers.py:201-211 | a row dated with four year digits, then any spelling `%m` and `%d` accept (one or two digits, or a blank and a digit for the day), gives a worklog on that day with the row's id, name and hours. The exception is month `1` followed by a two-digit day that starts with 0-2 and does not end in 0, which is read as months 10-12. The memo is the row's memo, with `No memo` read as empty |
| Trackers.UpworkRowAccepted | botapp/trackers.py:201-208 | an accepted row's date column spells its work date: four year digits, a one- or two-digit month and a day of one or two digits or a blank and a digit. The memo comes out empty exactly for `''` and `'No memo'` |
| Trackers.ResolveErrorIsMissingTicket | botapp/trackers.py:52-62 | `get_issue` fails only when the text has a ticket key whose Jira fetch raised (for example, the login or the request failed), and the error is that failed fetch |
| Trackers.UpworkFetch | botapp/trackers.py:194-197 | the report is returned when its status is absent or `success`, and raises otherwise |
| Trackers.SMonNormalize | botapp/trackers.py:237-251 | an SMon activity is dated on the UTC day of its `from`. Its hours times 3600 are `to - from`, its time range is `(from, to)`, and it has no `uniq_id` and an empty user name |
| Trackers.SMonNormalizeTotal | botapp/trackers.py:237-251 | an SMon report never raises and gives one row per activity, in order |
| Trackers.JiraMemo | botapp/trackers.py:337-339 | the memo is the issue key, then `': '` and the comment when there is a non-empty comment; otherwise it is the key alone |
| Trackers.JiraNormalize | botapp/trackers.py:326-342 | a worklog whose issue cannot be fetched raises, and so does one whose issue JSON lacks `key`. Otherwise the row carries the worklog id as `uniq_id`, `timeSpentSeconds / 3600` hours, the UTC day of `updated`, the author, and the memo |
| Trackers.JiraReportStops | botapp/trackers.py:326-342 | a Jira report raises exactly when some worklog's issue cannot be fetched or has no key |
| Trackers.SMonQueryEmpty | botapp/trackers.py:264-266 | the SMon request body is empty exactly when there is no SMon account |
| Trackers.SMonQueryItems | botapp/trackers.py:261-266 | every item asks for the whole window for an SMon account's uid, and every SMon account is asked for |
| Trackers.FetchSMon | botapp/trackers.py:253-279 | without SMon accounts nothing is fetched (None). Otherwise the one POST's activities come back, or its error is raised |
| Trackers.NoSMonAccountsNoReport | botapp/trackers.py:264-268 | over a valid table, the request is empty exactly when no account at all is an SMon account |
| Trackers.KeptExactly | botapp/trackers.py:125-127 | a fetched row is written exactly when its date lies inside `[from_date, to_date]` |
| Trackers.AccountProfileFits | botapp/trackers.py:117-121 | the profile looked up for a row is that of the first account of the source's type with the row's uid, or None when there is no such account |
| Trackers.PruneWindow | botapp/trackers.py:148-158 | exactly the worklogs of this system dated inside the window whose key is not in the batch are deleted; every other worklog is untouched |
| Trackers.DropOldWindow | botapp/trackers.py:100-105 | with `drop_old`, no worklog of the system dated inside the window is left; every other worklog stays unchanged, and nothing at all changes without `drop_old` |
| Trackers.LookupRow | botapp/trackers.py:117-123 | each row's profile and issue are resolved, written or not. The profile is the first matching account's. The issue, the cache, the issue table and the key counter afterwards are those of `get_issue` on the memo, with a raised error read as None |
| Trackers.WriteRow | botapp/trackers.py:117-147 | one iteration: the cache and issue table afterwards are those of `get_issue` on the memo. A row inside the window is upserted and appended to the batch, and the worklog written links the issue `get_issue` returned, or None if it raised. A row outside the window writes nothing |
| Trackers.UpsertRow | botapp/trackers.py:129-147 | a row inside the window is written with `update_or_create` from the row, the source's system and the looked-up profile and issue, and its key is appended to the batch. The worklog under that key links exactly that issue |
| Trackers.WriteRows | botapp/trackers.py:107-147 | the loop writes one batch entry per row inside the window. The last write of each key carries its row, the source's system, the row's profile and an issue fitting its memo. Every worklog not written is unchanged |
| Trackers.SyncFetchedReport | botapp/trackers.py:93-160 | the count is the number of rows inside the window, and the run fails exactly when the report raised, with its error. The last write of each key carries its row. `drop_old` sources delete every old worklog of their window first. The others delete their window's worklogs not written by this run, unless the report raised. Every other worklog is untouched, nothing but written keys is added, and profiles and accounts are unchanged |
| Trackers.Sync | botapp/trackers.py:88-91 | given a report of the loader's own kind: a fetch that returns None, or raises, gives that result and leaves the worklogs, issues and key counter unchanged. Otherwise the sync fails exactly when normalising the report raised, and its count is the number of rows inside the window |
| Trackers.CreateAccounts | botapp/trackers.py:285-296 | the only failure is MultipleObjectsReturned. On success, every row's name has exactly one profile with exactly one Upwork account for the row's uid. When every row was already settled, nothing changes. Existing profiles and accounts are kept unchanged. Every new profile is an active profile named after some row, and every new account is an Upwork account for some row's uid, whose profile has that row's name. Worklogs and issues are untouched |
| Trackers.SettleRow | botapp/trackers.py:286-296 | one row: the only failure is MultipleObjectsReturned; on success this row and every earlier row have their profile and account; a row already settled changes nothing. Existing profiles and accounts are kept unchanged, a new profile is the row's active profile, and a new account is an Upwork account for the row's uid whose profile has the row's name |
| JiraUtil.GetOriginalEstimate | botapp/jira_util.py:22-26 | the estimate is `originalEstimateSeconds / 3600` exactly when fields, timetracking and the seconds are all present, None otherwise |
| JiraUtil.EightHourEstimate | botapp/tests/tests.py:51-68 | an estimate of 28800 seconds is stored as 8 hours |
| JiraUtil.NewJiraIssue | botapp/jira_util.py:28-39 | a created issue carries the summary as title, the description or `''`, the estimate, and the URL `JIRA_BASE_URL/browse/<id>` |
| JiraUtil.Refreshed | botapp/jira_util.py:41-52 | with fields, title, description (null becomes `''`) and estimate are overwritten and every other field is kept; without fields the issue is unchanged |
| JiraUtil.RefreshedIdempotent | botapp/jira_util.py:41-52 | refreshing twice from the same JSON is refreshing once |
| JiraUtil.RefreshNewIssue | botapp/jira_util.py:28-52 | refreshing a newly created issue from the JSON it was created from changes nothing |
| JiraUtil.CreateJiraIssue | botapp/jira_util.py:28-39 | a failed fetch raises. JSON without fields creates nothing and gives None. Otherwise the new issue is stored under a fresh key, or refused with an integrity error when the key pair is taken |
| JiraUtil.UpdateJiraIssue | botapp/jira_util.py:41-52 | the stored issue is replaced by its refresh from the JSON; a failed fetch raises and changes nothing |
| Models.ShinyDescriptionAlike | botapp/models.py:81-85 | two worklogs are listed alike exactly when they share an issue, or both lack one and share their description |
| Models.Store.FindAccount | botapp/trackers.py:117-119 | `.filter(service_type, uid).first()`: the first matching account, or None when none matches |
| Models.Store.AccountProfile | botapp/trackers.py:117-121 | the profile of the first matching account is stored; None exactly when there is no account |
| Models.Store.FindCommit | gitapp/git_utils.py:82 | a commit with the hash, or None when no stored commit has it |
| Models.Store.FindUniqId | botapp/models.py:67 | the worklog holding a non-null `uniq_id`, or None when no worklog holds it |
| Models.Store.CreateIssue | botapp/models.py:56-57 | creation is refused with an integrity error exactly when `(issue_system, issue_id)` is taken; otherwise the issue is added under a fresh key |
| Models.Store.SaveIssue | botapp/jira_util.py:49-52 | `issue.save()` replaces the row and keeps the table valid |
| Models.Store.DeleteIssue | botapp/models.py:79 | deleting an issue keeps the worklogs and commits that pointed at it, unlinked |
| Models.Store.DeleteProfile | botapp/models.py:36-38 | deleting a profile deletes its service accounts and unlinks its worklogs and commits |
| Models.Store.ProfileGetOrCreate | botapp/trackers.py:290 | `get_or_create(name)` raises when several profiles have the name. It returns the one profile when there is one, and creates it when there is none |
| Models.Store.AccountGetOrCreate | botapp/trackers.py:294-296 | the same for an account `(upwork, uid, profile)` |
| Models.Store.UpsertWorklog | botapp/trackers.py:141 | `update_or_create(uniq_id=u)`: a non-null `u` updates the row holding it, or creates one when none does. A null `u` updates the row the database picks, or creates one |
| Models.Store.DeleteWindow | botapp/trackers.py:100-105 | exactly the worklogs of the system dated inside the window are deleted |
| Models.Store.DeleteWorklog | botapp/trackers.py:156-158 | `wl.delete()` removes that one worklog |
| Models.Store.CreateCommit | gitapp/models.py:36 | saving a commit is refused exactly when its hash is taken; otherwise it is added under a fresh key |
| Models.AccountsWithoutProfile | botapp/models.py:36-38 | CASCADE: the accounts of the profile go, all others stay unchanged |
| Models.WorklogsWithoutIssue | botapp/models.py:79 | SET_NULL: every worklog stays, and those linked to the issue lose only that link |
| Models.WorklogsWithoutProfile | botapp/models.py:78 | SET_NULL: every worklog stays, and those linked to the profile lose only that link |
| Models.CommitsWithoutIssue | gitapp/models.py:20 | SET_NULL on the commit's issue |
| Models.CommitsWithoutProfile | gitapp/models.py:21-34 | SET_NULL on author and committer profiles, each independently |
| Models.ProfileDeletionKeepsReferences | botapp/models.py:36-38 | deleting a profile with its on-delete rules leaves the tables valid: keys below the counter, every uniqueness constraint and every foreign key, so nothing refers to the deleted profile |
| Models.IssueDeletionKeepsReferences | botapp/models.py:79 | deleting an issue with its on-delete rules leaves the tables valid: keys below the counter, every uniqueness constraint and every foreign key, so nothing refers to the deleted issue |
| Dates.Monday | botapp/actions.py:21 | `today - timedelta(today.weekday())` is a Monday within the six days before `today` |
| Dates.MondayOf | botapp/admin.py:63 | a day lies in the week starting on Monday `m` exactly when `m` is its Monday |
| Dates.UtcDate | botapp/trackers.py:242 | the UTC date of a Unix time is the day whose 86400 seconds contain it |
| Dates.ParseFormatYmd | botapp/trackers.py:201 | every valid date spelled `YYYYMMDD` parses back to itself |
| Dates.ParseSpelled | botapp/trackers.py:201 | a valid date spelled with four year digits, a one- or two-digit month and a day of one or two digits or a blank and a digit parses to that date. The exception is the month `1` case read as months 10-12 |
| Dates.ParseYmdJanuaryRead | botapp/trackers.py:201 | year, `1`, then a two-digit day that starts with 0-2 and does not end in 0: the leftmost-first match reads month `1d` and the second digit as the day |
| Dates.ParseYmdSpells | botapp/trackers.py:201 | whatever `%Y%m%d` parses is four year digits, a month of one or two digits and a day of one or two digits or a blank and a digit, spelling a valid date |
| Dates.ParseYmdOneDigitFields | botapp/trackers.py:201 | `201737` parses as 2017-03-07 |
| Dates.ParseYmdLongMonthFirst | botapp/trackers.py:201 | `2017111` parses as 2017-11-01: the two-digit month is tried first |
| Dates.ParseYmdBlankDay | botapp/trackers.py:201 | `201711 1` parses as 2017-11-01 |
| Dates.ParseYmdBacktracks | botapp/trackers.py:201 | `2017110` parses as 2017-01-10: month `11` leaves day `0`, which fails, so the one-digit month is tried |
| Patterns.SearchIsLeftmost | botapp/trackers.py:28 | `re.search` returns a match, and none starts earlier; or no position matches at all |
| Patterns.SplitConcat | agileapp/views.py:53 | the pieces of `re.split` with a capturing group spell the input |
| Patterns.FindAllIsOdds | agileapp/views.py:39 | `re.findall` returns exactly the matched pieces of the split, in order |
| Patterns.SubIsRejoin | agileapp/views.py:41 | `re.sub(p, '', s, count)` removes the first `count` matches (all for 0) and keeps every other piece |
| AgileViews.Chunks | agileapp/views.py:33-35 | every chunk holds `n` items except the last, which holds 1 to `n` |
| AgileViews.ChunksFlatten | agileapp/views.py:33-35 | the chunks, concatenated, are the list |
| AgileViews.ChunksOfEven | agileapp/views.py:54 | a list of even length cuts into its consecutive pairs |
| AgileViews.FindAllTags | agileapp/views.py:38-39 | every text found is `[`, an alternative's text, `]` |
| AgileViews.ParseModifiersSpec | agileapp/views.py:37-43 | the modifiers are the case-insensitive matches, in order, each a bracketed modifier. The comment removes only the first two exact-case modifiers, because `re.IGNORECASE` lands in `count`. Then every bracket of non-word characters is removed |
| AgileViews.Parse | agileapp/views.py:45-66 | `parse` fails its assertion exactly when no project keys are configured |
| AgileViews.ParseEntries | agileapp/views.py:51-66 | there is one entry per tag. Each tag is the text matched, and the modifiers and comment come from the text up to the next tag; text before the first tag is dropped |
| AgileViews.ParseTags | agileapp/views.py:51-53 | the entries' tags are exactly what `findall` finds, in order, each a bracketed ticket key or custom word |
| AgileViews.ParseWithoutTags | agileapp/views.py:53-54 | a summary without tags parses to no entries |
| AgileViews.LookUpTags | agileapp/views.py:125-126 | stored issues are kept. When no lookup raises, there is one id per entry, each the stored issue with the entry's ticket key, or None |
| AgileViews.LineShowsEntry | agileapp/views.py:127-130 | a line is the tag, the `[mods]` text, then the issue's title or, without an issue, the comment |
| AgileViews.FormattedLines | agileapp/views.py:132-136 | with entries the cell is their lines joined by `<br />\n`; without, it is the text, or `-` for no text |
| AgileViews.LookUpTag | agileapp/views.py:126 | `IssueLoader().get_issue(tag)` is the resolution with an empty cache and without autoupdate |
| AgileViews.RenderLines | agileapp/views.py:124-130 | the loop builds one line per entry from the lookups, or stops with the first lookup failure |
| AgileViews.RenderNext | agileapp/views.py:125-130 | one turn of that loop: a lookup failure ends the lookups with that error; otherwise the next id and the line of the next entry, with the store advanced as the lookups say |
| AgileViews.ReformatWithJira | agileapp/views.py:120-136 | the cell text from the parsed entries and their issues. A parse failure changes nothing; issues created on the way stay stored |
| AgileViewsExamples.SampleFound | agileapp/views.py:39 | in `[[DONE] [REVIEW]] text` the modifiers found are `[DONE]` and `[REVIEW]` |
| AgileViewsExamples.SampleKept | agileapp/views.py:41 | removing the modifiers leaves `[ ] text` |
| AgileViewsExamples.SampleCleaned | agileapp/views.py:42 | the empty bracket is then removed |
| AgileViewsExamples.ParseModifiersSample | botapp/tests/tests.py:171 | the entry's modifiers are `[DONE]`, `[REVIEW]` and its stripped comment is `text` |
| BotViews.WindowSpec | botapp/views.py:18-25 | `iterate_dates` yields every day from the earlier end to the later one, ascending, once each, whichever end comes first |
| BotViews.IterateDates | botapp/views.py:18-25 | the while loop yields exactly that window |
| BotViews.ThreeDayWindow | botapp/tests/tests.py:139-156 | three consecutive days come out ascending in either argument order |
| BotViews.LastValueIsLast | botapp/views.py:28-33 | a day's value is that of the last item with that date |
| BotViews.NormalizedValues | botapp/views.py:28-37 | one value per day of the window: the last item's value for that day, or None |
| BotViews.GroupedWorklog.constructor | botapp/views.py:41-44 | a group starts with the worklog's hours, listing and issue |
| BotViews.GroupedWorklog.Add | botapp/views.py:46-47 | adding a worklog adds its hours |
| BotViews.AddToGroup | botapp/views.py:99-100 | `groups[text].add(w)` adds the worklog's hours to its own listing's total, leaving every other total as it was |
| BotViews.GroupedSpec | botapp/views.py:95-103 | the groups are sorted by hours, largest first, and no listing has two groups. Each group has the total hours of its worklogs, and every worklog's listing has a group |
| BotViews.GroupedHours | botapp/views.py:95-103 | grouping loses no time: the groups' hours add up to the worklogs' hours |
| BotViews.CollectGroups | botapp/views.py:96-102 | the dict holds one distinct fresh group per listing, in first-appearance order, each with the summed hours |
| BotViews.GetGroupedWorklogs | botapp/views.py:95-103 | the group objects carry the sorted groups, listing by listing |
| BotViews.ByDaySpec | botapp/views.py:150-160 | a day's bucket holds exactly the items of that day, each as often as it occurs, in query order |
| BotViews.IndexByDay | botapp/views.py:150-157 | the dict maps each day to exactly that day's bucket, and a day absent from it has an empty bucket |
| BotViews.Bucket | botapp/views.py:150-160 | the dict-of-lists loop gives one bucket per day of the list, empty for a day without items |
| BotViews.SortedDates | botapp/views.py:56 | `dates_list` is the window from its last day down to its first |
| BotViews.GitlabDelsAsWritten | botapp/views.py:87 | the code as written raises exactly when some commit has no deletion count |
| BotViews.GitlabDelsAsWrittenFails | botapp/views.py:87 | a single commit without a deletion count makes the summary raise, where the intended sum is 0 |
| BotViews.GitlabDelsSpec | botapp/views.py:87 | the corrected sum is minus the deleted lines and agrees with the code wherever that does not raise |
| BotViews.DayOfSpec | botapp/views.py:81-92 | a day is a weekend day exactly on Saturday and Sunday. Its tracked hours are all its worklogs' hours, its listings are distinct, and its deletions are minus the deleted lines |
| BotViews.DaySummaryOf | botapp/views.py:78-93 | one iteration of `calc_summary` builds that day's summary |
| BotViews.Report.constructor | botapp/views.py:50-66 | a report holds the window in descending order, the profile's worklogs and commits bucketed by day, and one summary per day |
| BotViews.Report.CalcTrackerStats | botapp/views.py:143-160 | appends the profile's worklogs, bucketed by `dates_list` |
| BotViews.Report.CalcGitlabStats | botapp/views.py:123-141 | appends the profile's commits in the window, bucketed by `dates_list` |
| BotViews.Report.CalcSummary | botapp/views.py:77-93 | appends one summary per day |
| Actions.TodayWindow | botapp/actions.py:22-24 | `today` wins over every other option: the window is today alone |
| Actions.YesterdayWindow | botapp/actions.py:26-27 | `yesterday` wins over all but `today`: the day before today |
| Actions.ThisWeekWindow | botapp/actions.py:29-31 | `this_week`: the days of today's week up to today, one to seven of them |
| Actions.PrevWeekWindow | botapp/actions.py:33-35 | `prev_week`: the seven days of the previous week |
| Actions.LastDaysWindow | botapp/actions.py:37-39 | `last_days=N`, N positive: the N days ending today |
| Actions.ExplicitWindow | botapp/actions.py:40-42 | otherwise the given dates, each defaulting to today |
| Actions.MemoKeysMembers | botapp/actions.py:64-65 | the users counted are exactly the profiles of worklogs with a profile and no description |
| Actions.NoProblemsExactly | botapp/actions.py:58-79 | `No problems found` exactly when no active user logged time without a memo |
| Actions.TimesheetSpec | botapp/actions.py:58-72 | the timesheet is sorted by name and names each user once. Each user's hours are that user's hours without a memo, and they add up to all such hours |
| Actions.TimesheetUsers | botapp/actions.py:58-72 | a profile is listed exactly when it is active and has a worklog without a memo |
| Actions.MemoKeysActive | botapp/actions.py:58-65 | the profiles counted are exactly the active profiles with a worklog without a memo |
| Actions.HandleMissingMemo | botapp/actions.py:53-79 | the loop and the sort give that report |
| Actions.SumMissing | botapp/actions.py:58-69 | the `users` dict holds each such profile, in first-appearance order, with its summed hours |
| Outputs.RegistrationsLast | botapp/outputs.py:11-14 | a key is registered exactly when some class has it, and it maps to the last class registered under it |
| Outputs.RegistrationsHave | botapp/outputs.py:11-14 | every registered class's key is in the registry |
| Outputs.DeclaredOutputs | botapp/outputs.py:17-125 | after the module loads, every declared class is found under its own key, and nothing else is registered |
| Outputs.OutputRegistry.constructor | botapp/outputs.py:8-14 | loading the module registers the declared classes in order |
| Outputs.OutputRegistry.Register | botapp/outputs.py:11-14 | registration stores the class under its key, replacing an earlier one |
| Outputs.OutputRegistry.GetOutput | botapp/outputs.py:161-168 | a registered pair gives its class; any other pair raises KeyError |
| Outputs.MaxNameLen | botapp/outputs.py:51 | the longest name's length |
| Outputs.FormatLines | botapp/outputs.py:53-56 | one line per user, in order |
| Outputs.LinesAligned | botapp/outputs.py:51-56 | every line is its name and then dots up to the same column, three past the longest name, so at least three dots; the hours start in that column |
| Outputs.FormatMessage | botapp/outputs.py:49-66 | no users gives `No worklogs available`; otherwise the lines and the window go to the template |
| Outputs.ReportLinesExample | botapp/tests/tests.py:77-80 | `John Smith.....0.2h` and `Vasya Pupkin...2.0h` |
| Outputs.SlackStatusSent | botapp/outputs.py:129-145 | a message is sent exactly when the first schedule has a last pipeline whose status is failed, success or running |
| Outputs.SlackStatusFirstOnly | botapp/outputs.py:130-131 | only the first schedule counts |
| Outputs.SlackStatusText | botapp/outputs.py:147-158 | the fallback is the title, and the text links the pipeline and ends with the status in capitals |
| GitUtils.UrlIgnoresLeadingSlash | gitapp/git_utils.py:64 | a path with or without a leading `/` gives the same URL |
| GitUtils.UrlShape | gitapp/git_utils.py:64 | the URL is `host/api/v<version>/` and the path without its leading slashes |
| GitUtils.UrlOfRootedPath | gitapp/git_utils.py:64 | `/path` gives `host/api/v<version>/path` |
| GitUtils.FetchPathStatus | gitapp/git_utils.py:63-69 | a 200 reply gives its JSON; any other status raises with the reply's content |
| GitUtils.BranchCommitsFrom | gitapp/git_utils.py:44-53 | every `(branch, commit)` yielded comes from a branch committed on or after `from_date`, from that branch's commit listing |
| GitUtils.BranchCommitsComplete | gitapp/git_utils.py:44-53 | when nothing raises, every commit of every such branch is yielded |
| GitUtils.ListRecentCommits | gitapp/git_utils.py:44-53 | the nested loops yield exactly those pairs, up to the first failure |
| GitUtils.AppendTagged | gitapp/git_utils.py:51-53 | the inner loop yields each commit of the branch, paired with the branch name, in order, after what was yielded before |
| GitUtils.ExtendedSchedulesSpec | gitapp/git_utils.py:127-133 | one extended record per listed schedule, in list order, or the first failure |
| GitUtils.GetUserProfile | gitapp/git_utils.py:121-125 | the profile of the GitLab account with the smallest key whose uid is the address (`first()`), or None when there is none |
| GitUtils.GetUserProfileAnyBound | gitapp/git_utils.py:121-125 | the answer depends only on the accounts |
| GitUtils.GitlabProjects | gitapp/git_utils.py:79 | the GitLab projects, each once, in key order |
| GitUtils.GitlabLoader.constructor | gitapp/git_utils.py:73-76 | a client from the environment (API version 4) and a loader with an empty cache and no autoupdate |
| GitUtils.GitlabLoader.ImportCommit | gitapp/git_utils.py:82-116 | a commit whose hash is stored is left alone. For a new commit, the cache and issues afterwards are those of `get_issue` on its title. It fails exactly when that lookup or the stats fetch fails, and then nothing is stored. A commit saved is built from the listed JSON and its stats, and is linked to its author's and committer's profiles and to the issue `get_issue` returned. Success means the hash is stored. Stored commits never change |
| GitUtils.GitlabLoader.ImportNewCommit | gitapp/git_utils.py:86-116 | a new commit: the cache and issues afterwards are those of `get_issue` on the title. A failing lookup gives its error, then a failing stats fetch gives its error, and otherwise the save decides. Every row added is built from the listing and linked to the issue `get_issue` returned and to its profiles. Stored commits are kept; on success the hash is stored |
| GitUtils.GitlabLoader.SaveCommit | gitapp/git_utils.py:91-116 | the row saved carries the listing's fields, the issue and stats found and the author and committer profiles of their addresses. The save fails, with an integrity error and nothing stored, exactly when the hash is already stored; on success the hash is stored |
| GitUtils.GitlabLoader.ImportCommits | gitapp/git_utils.py:80-116 | each new row comes from the listing and is linked; on success every listed commit is stored. A failure stops at a listed commit that is not stored, after every earlier one is: the Jira fetch of its ticket raised (for example, the login or the request failed) or its stats fetch failed, and the error is that failure |
| GitUtils.GitlabLoader.Sync | gitapp/git_utils.py:78-116 | every commit stored during the run comes from a recent listing of its GitLab project and is linked to its profiles and issue. Without failure, every listed commit is stored. A failure happens at a GitLab project after every earlier one is synced: either a listing failed, or an import failed as in `ImportCommits` |
| GitUtils.StoppedAtListed | gitapp/git_utils.py:78-81 | a failure while syncing the i-th GitLab project, with the earlier ones synced, is a stop at that project |
| GitUtils.GitlabLoader.GetPipelineSchedules | gitapp/git_utils.py:127-133 | the loop gives one extended record per listed schedule, in order |
| Admin.QuerySet | botapp/admin.py:60-94 | the filter keeps exactly the rows whose date lies in the chosen window |
| Admin.ConditionDefined | botapp/admin.py:60-94 | a window applies exactly for one of the eight lookup codes; no value, or any other value, returns the rows unchanged |
| Admin.ShortWindows | botapp/admin.py:64-71 | `today` is today, `yesterday` the day before, `3days` the days from two days ago |
| Admin.PrevWindowIsWeek | botapp/admin.py:76-86 | `prev_week`, `prev2_week` and `prev3_week` are exactly the weeks one, two and three before today's |
| Admin.FourWeeksPartition | botapp/admin.py:73-89 | `4weeks` is the union of this week from Monday and the three previous weeks, which are pairwise disjoint |
| Admin.ChartNames | botapp/admin.py:204 | each worklog is named by its profile's name when it has one, by its user name otherwise |
| Admin.Rounded | botapp/admin.py:212-214 | each label's value is its rounded summed hours |
| Admin.PieChartShown | botapp/admin.py:216-219 | a chart is shown exactly when the issue has worklogs; otherwise `Nothing to show` |
| Admin.PieChartSlices | botapp/admin.py:202-214 | the chart has the given title and one slice per distinct name. The labels are exactly the worklogs' names. Each slice holds that name's rounded hours, and the unrounded slices add up to the hours |
| Admin.PieChartTotal | botapp/admin.py:187-190 | the unrounded slices add up to `total_hours_worked` |
| Admin.PieChartOf | botapp/admin.py:201-219 | the dict-filling loop gives that chart, titled with the issue's id |
| Admin.AccountNames | botapp/admin.py:37 | each account's service-type name, in order |
| Admin.LinkedAccounts | botapp/admin.py:34-39 | the profile's service-type names joined with `, ` in account order |
| Admin.LinkedAccountsCount | botapp/admin.py:34-39 | the column has no comma for a profile without accounts, and one comma fewer than its accounts otherwise |

## Left out

- HTTP and SDK calls are inputs, not calls. The Jira answers for `fetch_jira_issue`, including its session login, are a map from issue id to JSON. A key missing from that map stands for a fetch that raised. An unknown ticket that Jira answers with a 404 is a JSON without `fields`. The GitLab `requests.get` replies are maps from request to reply. The SMon POST is a function. The Upwork client call is its response. The Slack `api_call` is not modelled; the model produces the attachment that would be sent.
- `JiraLoader.fetch_team_report` calls `JiraFetcher.fetch_worklogs`, which is not part of this model, so the fetched report is an input of `Trackers.Sync`.
- `JiraLoader.create_users` and `autocreate_users` create accounts through a test factory, which is not part of this model.
- `UpworkLoader.fetch_team_report`'s client set-up and query string are left out; only its status check (`UpworkFetch`) is modelled.
- The Jira JSON is assumed to carry `summary` and `description` whenever it has `fields`. The code raises KeyError when one is missing, and the model does not cover that case.
- Parsing numbers and timestamps is left out. `float()` of Upwork hours, `timeSpentSeconds / 60 / 60` in floating point, and Jira `updated` strings become real hours and Unix seconds. Commit `created_at` becomes a day ordinal. `authored_date` and `committed_date` are not stored.
- `strftime` is left out: `'%Y-%m-%d'` is an `isoDate` parameter and `'%s'` a `midnight` parameter. The formatting `'{:.1f}'` and `round(value, 1)` are parameters too.
- Logging, `print`, and the command's `stdout`/`stderr` are left out. The count `sync_fetched_report` prints is the count `Trackers.Sync` returns.
- Template rendering (`missing_memo_report.txt`, `timesheet_report.txt`) is left out. The model produces the values handed to the template.
- Plotly charts are left out: `create_tracker_report`, `create_gitlab_report`, `plotly_chart`. The pie chart is the `Chart` datatype of its title, values and labels.
- The ReportLab PDF of `RenderReport` is left out: `get`, `gen_pdf_response`, `apply_header_style`, `get_empty_pdf_response`, `gen_cell` and `create_summary_section`. The `has_perm` decorator is left out too.
- `Worklog.objects.between` is not in the shown code. The rows a query returns, in query order, are inputs of `Report`, `HandleMissingMemo` and the admin members. A worklog's profile is assumed to be a stored profile.
- Which row `update_or_create(uniq_id=None)` updates is the database's choice. It is the `nullMatch` parameter, and an answer that names no existing row without a `uniq_id` means a new row.
- `first()` on a table without an ordering is modelled as the row with the smallest key.
- Querysets without an ordering, such as `GitProject.objects.filter(hosting=gitlab)` in `sync`, are iterated in key order. The database may return another order.
- `date.today()` is the input `today`. `WeekListFilter.queryset` calls it once per comparison; the model reads it once.
- Orchestration is left out:
  - `ReportAction` (its default-team query and `Sum` annotation) and the sync actions;
  - the optional sync and `send_message` of `IssueAction`;
  - the management commands and the Celery tasks.
- Output classes that only print or call Slack are left out: `ConsoleTextOutput`, `SlackTextOutput`, `ConsoleReportOuptut`, `SlackReportOutput` and `ConsoleSchedulesStatusOutput`.
- UI code is left out:
  - `DashboardView`, `DateRangeForm`, `get_user_profiles`, `get_commit_name`;
  - `TagsTimeView`, which takes an arbitrary element with `set.pop()` and uses month arithmetic;
  - the admin display helpers (`user`, `open_issue`, `issue_title`, `orig_estimate`, `week_day`, `total`, `logged`, `open_link`, `jira_link`), the `UpworkChangeList` aggregates and `TeamAdmin.team_members`.
- Case folding and the `\w`/`\d` classes follow ASCII. Python's `str.upper` and `re` are Unicode-aware; the two agree on ASCII text. Unicode digits and word characters outside ASCII are not modelled.
- Trackers.SyncFetchedReport: a written worklog's issue is stated as the stored issue carrying its memo's ticket key, or None. The exact chain of `get_issue` calls across the loop is not threaded through the contract, because new issue keys interleave with new worklog keys.
- Trackers.Sync: for a report that was fetched, it states only the result. The new store is stated by `SyncFetchedReport`, which it calls.
- BotViews.DayOfSpec: the day's deletions are the corrected sum `GitlabDels` (see Findings). The code raises TypeError when a commit of that day has a null deletions count.
- BotViews.DaySummaryOf: the summary is built with the corrected sum `GitlabDels` (see Findings). The code raises TypeError when a commit of that day has a null deletions count.
- BotViews.Report.CalcSummary: the summaries use the corrected sum `GitlabDels` (see Findings). The code raises TypeError on a commit with a null deletions count.
- BotViews.Report.constructor: never fails. `Report.__init__` raises TypeError through `calc_summary` when a commit in the window has a null deletions count.
- Trackers.WriteRows: the issue linked to each row written is stated only as an issue that fits the row's memo. The exact `get_issue` result is stated per row by `LookupRow` and `WriteRow`, because the cache threads through the loop.
- GitUtils.GitlabLoader.Sync: the issue linked to each row written during the run is stated only as an issue that fits the commit's title. The exact `get_issue` result is stated per commit by `ImportCommit`.
- GitUtils.GitlabLoader.ImportCommits: the issue linked to each row written is stated only as an issue that fits the commit's title. The exact `get_issue` result is stated per commit by `ImportCommit`.
- Concurrency between overlapping syncs, and transactions, are left out.

## Where the design description and the code differ

The model follows the code in each case:

- **Cached None (botapp/trackers.py:48).** The description says a resolved value, including a "not creatable" outcome, is cached and reused for the rest of the run. In the code a cached None is falsy and is looked up again; see `Trackers.ResolveCachedNoneLooksAgain`.
- **SMon request (botapp/trackers.py:264-270).** The description says SMon is queried once per account. The code sends one POST listing every SMon account; see `Trackers.FetchSMon`.
- **Pruning when there is no report (botapp/trackers.py:88-91).** The description says a source returning no rows still runs the pruning. When `fetch_team_report` returns None, the code skips `sync_fetched_report` entirely. For SMon that happens whenever there is no SMon account, so nothing is pruned then; see `Trackers.Sync` and `Trackers.NoSMonAccountsNoReport`.
- **Jira pagination.** The description describes the Jira feed as paginated, with early termination. That code is not shown, and its output is taken as a finite sequence.

## Findings

| source | as written | input that shows it | evidently intended | confidence | as-written member | corrected member |
|---|---|---|---|---|---|---|
| botapp/views.py:87 | `sum([-c.deletions or 0 for c in commits])`: unary minus binds tighter than `or`, so `-None` raises TypeError | a day with one commit whose `deletions` is null (the field is nullable, gitapp/models.py:57) | `sum([-(c.deletions or 0) for c in commits])`, minus the deleted lines with null counted as 0, as `gitlab_adds` does on the line above | high; not executed | BotViews.GitlabDelsAsWritten, BotViews.GitlabDelsAsWrittenFails | BotViews.GitlabDels, BotViews.GitlabDelsSpec |
