/**
 * The mapping from a Jira issue's JSON to the stored issue: the original
 * estimate in hours, a new issue, and the refresh of an existing one.
 * Fetching the JSON is an input: `jira` maps an issue id to the JSON the
 * server returns for it, and an id it lacks is a request that raised.
 */
module JiraUtil {
  import opened Wrappers
  import opened Models

  datatype TimeTracking = TimeTracking(originalEstimateSeconds: Option<int>)

  /** `fields` of the issue JSON; a null description is None. */
  datatype Fields = Fields(summary: string, description: Option<string>, timetracking: Option<TimeTracking>)

  /** The issue JSON; an absent key is None. */
  datatype IssueJson = IssueJson(fields: Option<Fields>, key: Option<string>)

  type JiraOracle = map<string, IssueJson>

  /** `originalEstimateSeconds / 3600` when `fields.timetracking.originalEstimateSeconds` is present. */
  function GetOriginalEstimate(j: IssueJson): (r: Option<real>)
    ensures r.Some? <==>
      j.fields.Some? && j.fields.value.timetracking.Some? && j.fields.value.timetracking.value.originalEstimateSeconds.Some?
    ensures r.Some? ==> r.value * 3600.0 == j.fields.value.timetracking.value.originalEstimateSeconds.value as real
  {
    if j.fields.Some? && j.fields.value.timetracking.Some? then
      match j.fields.value.timetracking.value.originalEstimateSeconds
      case Some(secs) => Some(secs as real / 3600.0)
      case None => None
    else None
  }

  /** An eight-hour estimate is stored as 8 hours. */
  lemma EightHourEstimate(summary: string, description: Option<string>, key: Option<string>)
    ensures GetOriginalEstimate(IssueJson(Some(Fields(summary, description, Some(TimeTracking(Some(28800))))), key)) == Some(8.0)
  {
    var j := IssueJson(Some(Fields(summary, description, Some(TimeTracking(Some(28800))))), key);
    assert GetOriginalEstimate(j).value * 3600.0 == 28800.0;
  }

  /** `JIRA_BASE_URL/browse/<issue id>`. */
  function BrowseUrl(baseUrl: string, issueId: string): string {
    baseUrl + "/browse/" + issueId
  }

  /** The issue `create_jira_issue` stores for JSON with fields. */
  function NewJiraIssue(issueId: string, j: IssueJson, baseUrl: string): (i: Issue)
    requires j.fields.Some?
    ensures i.system == JiraIssues && i.issueId == issueId && i.url == BrowseUrl(baseUrl, issueId)
    ensures i.title == j.fields.value.summary
    ensures i.description == j.fields.value.description.GetOr("")
    ensures i.originalEstimate == GetOriginalEstimate(j) && i.remainingEstimate.None? && i.tags == []
  {
    var f := j.fields.value;
    Issue(JiraIssues, issueId, f.summary, f.description.GetOr(""), BrowseUrl(baseUrl, issueId),
      GetOriginalEstimate(j), None, [])
  }

  /**
   * What `update_jira_issue` leaves of an issue: with fields, new title,
   * description and original estimate and every other field kept; without,
   * the issue as it was.
   */
  function Refreshed(i: Issue, j: IssueJson): (r: Issue)
    ensures j.fields.None? ==> r == i
    ensures j.fields.Some? ==> (r.title == j.fields.value.summary
      && r.description == j.fields.value.description.GetOr("")
      && r.originalEstimate == GetOriginalEstimate(j))
    ensures r.system == i.system && r.issueId == i.issueId && r.url == i.url
    ensures r.remainingEstimate == i.remainingEstimate && r.tags == i.tags
  {
    match j.fields
    case None => i
    case Some(f) => i.(title := f.summary, description := f.description.GetOr(""), originalEstimate := GetOriginalEstimate(j))
  }

  /** Refreshing twice from the same JSON is refreshing once. */
  lemma RefreshedIdempotent(i: Issue, j: IssueJson)
    ensures Refreshed(Refreshed(i, j), j) == Refreshed(i, j)
  {
  }

  /** A refreshed new issue is the same new issue. */
  lemma RefreshNewIssue(issueId: string, j: IssueJson, baseUrl: string)
    requires j.fields.Some?
    ensures Refreshed(NewJiraIssue(issueId, j, baseUrl), j) == NewJiraIssue(issueId, j, baseUrl)
  {
  }

  /**
   * `JiraFetcher.create_jira_issue`: None when the JSON has no fields,
   * otherwise the key of the newly stored issue.
   */
  method CreateJiraIssue(store: Store, jira: JiraOracle, baseUrl: string, issueId: string) returns (r: Result<Option<Id>>)
    requires store.Valid()
    modifies store`issues, store`nextId
    ensures store.Valid()
    ensures issueId !in jira ==> r == Err(FetchFailed(issueId)) && store.issues == old(store.issues)
    ensures issueId in jira && jira[issueId].fields.None? ==> r == Ok(None) && store.issues == old(store.issues)
    ensures issueId in jira && jira[issueId].fields.Some? ==>
      if old(store.FindIssue(JiraIssues, issueId)).Some? then
        r.Err? && r.error.IntegrityError? && store.issues == old(store.issues)
      else
        r == Ok(Some(old(store.nextId))) && store.nextId == old(store.nextId) + 1
        && store.issues == old(store.issues)[old(store.nextId) := NewJiraIssue(issueId, jira[issueId], baseUrl)]
    ensures r.Err? || r == Ok(None) ==> store.nextId == old(store.nextId)
  {
    if issueId !in jira {
      return Err(FetchFailed(issueId));
    }
    var j := jira[issueId];
    if j.fields.None? {
      return Ok(None);
    }
    var created := store.CreateIssue(NewJiraIssue(issueId, j, baseUrl));
    match created
    case Ok(id) => r := Ok(Some(id));
    case Err(e) => r := Err(e);
  }

  /** `JiraFetcher.update_jira_issue`: refreshes the stored issue `id` from its JSON. */
  method UpdateJiraIssue(store: Store, jira: JiraOracle, id: Id, issueId: string) returns (r: Result<()>)
    requires store.Valid() && id in store.issues
    modifies store`issues
    ensures store.Valid()
    ensures r.Err? <==> issueId !in jira
    ensures r.Err? ==> r == Err(FetchFailed(issueId)) && store.issues == old(store.issues)
    ensures r.Ok? ==> store.issues == old(store.issues)[id := Refreshed(old(store.issues)[id], jira[issueId])]
  {
    if issueId !in jira {
      return Err(FetchFailed(issueId));
    }
    var j := jira[issueId];
    if j.fields.Some? {
      store.SaveIssue(id, Refreshed(store.issues[id], j));
    }
    r := Ok(());
  }
}
