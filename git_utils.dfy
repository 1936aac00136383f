/**
 * The GitLab side: the REST client (URL building, status handling, the
 * recent-commit listing over branches), the import-once commit sync into
 * the store, and the listing of pipeline schedules.
 */
module GitUtils {
  import opened Wrappers
  import opened Text
  import opened Models
  import opened JiraUtil
  import opened Trackers
  import opened Outputs

  // ----- the REST client --------------------------------------------------------

  /** One GET request: its URL, its query parameters and its `Private-Token` header. */
  datatype Request = Request(url: string, params: seq<(string, string)>, token: string)

  /** An answer: the status code, the raw body and the decoded JSON. */
  datatype Reply<T> = Reply(status: int, content: string, json: T)

  /** The JSON shapes read from the GitLab API. Dates are day ordinals. */
  datatype Branch = Branch(name: string, committedDay: int)

  datatype CommitJson = CommitJson(
    id: string,
    shortId: string,
    title: string,
    authorName: string,
    authorEmail: string,
    committerName: string,
    committerEmail: string,
    createdDay: int,
    message: string)

  datatype Stats = Stats(additions: Option<int>, deletions: Option<int>, total: Option<int>)

  /** A single commit; `stats` is None when the answer has no `stats` key. */
  datatype CommitDetail = CommitDetail(stats: Option<Stats>)

  datatype ScheduleRef = ScheduleRef(id: nat)

  /**
   * The GitLab server, as the answers it gives per endpoint; a request it
   * does not answer is a connection failure.
   */
  datatype GitlabServer = GitlabServer(
    branches: map<Request, Reply<seq<Branch>>>,
    commits: map<Request, Reply<seq<CommitJson>>>,
    details: map<Request, Reply<CommitDetail>>,
    scheduleLists: map<Request, Reply<seq<ScheduleRef>>>,
    schedules: map<Request, Reply<Schedule>>)

  function BranchesPath(projectId: string): string { "/projects/" + projectId + "/repository/branches" }
  function CommitsPath(projectId: string): string { "/projects/" + projectId + "/repository/commits" }
  function CommitPath(projectId: string, commitId: string): string { CommitsPath(projectId) + "/" + commitId }
  function SchedulesPath(projectId: string): string { "projects/" + projectId + "/pipeline_schedules" }
  function SchedulePath(projectId: string, scheduleId: nat): string {
    SchedulesPath(projectId) + "/" + NatToString(scheduleId)
  }

  function EnvGet(env: map<string, string>, name: string): string {
    if name in env then env[name] else ""
  }

  /** Fetching each of `xs` in turn; the first failure aborts the rest. */
  function FetchEach<A, T>(xs: seq<A>, fetch: A -> Result<T>): Result<seq<T>>
    decreases |xs|
  {
    if xs == [] then Ok([])
    else match fetch(xs[0])
      case Err(e) => Err(e)
      case Ok(s) =>
        match FetchEach(xs[1..], fetch)
        case Err(e) => Err(e)
        case Ok(rest) => Ok([s] + rest)
  }

  /** One answer per element, in order, or a failure exactly when one fetch fails. */
  lemma {:induction false} FetchEachSpec<A, T>(xs: seq<A>, fetch: A -> Result<T>)
    ensures FetchEach(xs, fetch).Ok? <==> forall k :: 0 <= k < |xs| ==> fetch(xs[k]).Ok?
    ensures FetchEach(xs, fetch).Ok? ==>
      |FetchEach(xs, fetch).value| == |xs|
      && forall k :: 0 <= k < |xs| ==> fetch(xs[k]) == Ok(FetchEach(xs, fetch).value[k])
    decreases |xs|
  {
    if xs != [] {
      FetchEachSpec(xs[1..], fetch);
      assert forall k :: 1 <= k < |xs| ==> xs[1..][k - 1] == xs[k];
      var r := FetchEach(xs, fetch);
      if r.Ok? {
        var rest := FetchEach(xs[1..], fetch).value;
        assert r.value == [fetch(xs[0]).value] + rest;
        assert forall k :: 1 <= k < |xs| ==> r.value[k] == rest[k - 1];
      }
    }
  }

  /** `GitLabClient`: host and token from the environment, API version 4. */
  datatype GitLabClient = GitLabClient(host: string, token: string, apiVersion: string)
  {
    /** The URL `fetch_path` requests: host, `/api/v`, version, `/`, the path without leading slashes. */
    function Url(path: string): string {
      host + "/api/v" + apiVersion + "/" + LStrip(path, '/')
    }

    function RequestFor(path: string, params: seq<(string, string)>): Request {
      Request(Url(path), params, token)
    }

    /** `fetch_path`: the JSON of a 200 answer; any other status raises with the body. */
    function FetchPath<T>(replies: map<Request, Reply<T>>, path: string, params: seq<(string, string)>): Result<T> {
      var q := RequestFor(path, params);
      if q !in replies then Err(FetchFailed(q.url))
      else if replies[q].status == 200 then Ok(replies[q].json)
      else Err(FetchFailed(replies[q].content))
    }

    /** The commits of one branch since `since`. */
    function BranchCommitList(server: GitlabServer, projectId: string, since: string, branch: string): Result<seq<CommitJson>> {
      FetchPath(server.commits, CommitsPath(projectId), [("since", since), ("ref_name", branch)])
    }

    /** `get_commit_stats`: the `stats` of one commit; errors propagate. */
    function GetCommitStats(server: GitlabServer, projectId: string, commitId: string): Result<Stats> {
      match FetchPath(server.details, CommitPath(projectId, commitId), [])
      case Err(e) => Err(e)
      case Ok(d) => if d.stats.Some? then Ok(d.stats.value) else Err(KeyMissing("stats"))
    }

    /**
     * What `list_recent_commits` yields from `branches`: for each branch last
     * committed on or after `from`, in order, `(name, commit)` for each of its
     * commits; a failed fetch ends the generator.
     */
    function BranchCommits(server: GitlabServer, projectId: string, from: int, since: string, branches: seq<Branch>)
      : Stream<(string, CommitJson)>
      decreases |branches|
    {
      if branches == [] then Stream([], None)
      else
        var rest := BranchCommits(server, projectId, from, since, branches[1..]);
        if branches[0].committedDay < from then rest
        else match BranchCommitList(server, projectId, since, branches[0].name)
          case Err(e) => Stream([], Some(e))
          case Ok(cs) => Stream(Tagged(branches[0].name, cs) + rest.items, rest.failure)
    }

    /** `list_recent_commits`, as the stream it yields. */
    function RecentCommits(server: GitlabServer, projectId: string, from: int, since: string): Stream<(string, CommitJson)> {
      match FetchPath(server.branches, BranchesPath(projectId), [("per_page", "1000")])
      case Err(e) => Stream([], Some(e))
      case Ok(branches) => BranchCommits(server, projectId, from, since, branches)
    }

    /** The schedules of `refs`, fetched one by one; the first failure aborts. */
    function ExtendedSchedules(server: GitlabServer, projectId: string, refs: seq<ScheduleRef>): Result<seq<Schedule>> {
      FetchEach(refs, (r: ScheduleRef) => FetchPath(server.schedules, SchedulePath(projectId, r.id), []))
    }

    /** `get_pipeline_schedules`: the listed schedules, each fetched in full. */
    function PipelineSchedules(server: GitlabServer, projectId: string): Result<seq<Schedule>> {
      match FetchPath(server.scheduleLists, SchedulesPath(projectId), [])
      case Err(e) => Err(e)
      case Ok(refs) => ExtendedSchedules(server, projectId, refs)
    }
  }

  /** `GitLabClient()`: `GITLAB_HOST` and `GITLAB_TOKEN`, empty when unset. */
  function NewClient(env: map<string, string>): GitLabClient {
    GitLabClient(EnvGet(env, "GITLAB_HOST"), EnvGet(env, "GITLAB_TOKEN"), "4")
  }

  function Tagged(name: string, cs: seq<CommitJson>): (r: seq<(string, CommitJson)>)
    ensures |r| == |cs| && forall k :: 0 <= k < |cs| ==> r[k] == (name, cs[k])
  {
    seq(|cs|, k requires 0 <= k < |cs| => (name, cs[k]))
  }

  // ----- properties of the client ------------------------------------------------

  /** Leading slashes of a path do not reach the URL. */
  lemma UrlIgnoresLeadingSlash(c: GitLabClient, path: string)
    ensures c.Url("/" + path) == c.Url(path)
  {
    assert ("/" + path)[1..] == path;
  }

  /** The URL is the API prefix followed by the path less its leading slashes. */
  lemma UrlShape(c: GitLabClient, path: string) returns (n: nat)
    ensures n <= |path| && path == Repeat('/', n) + path[n..]
    ensures path[n..] == [] || path[n..][0] != '/'
    ensures c.Url(path) == c.host + "/api/v" + c.apiVersion + "/" + path[n..]
  {
    var i :| 0 <= i <= |path| && LStrip(path, '/') == path[i..] && forall k :: 0 <= k < i ==> path[k] == '/';
    n := i;
    var r := LStrip(path, '/');
    assert r == [] || r[0] != '/';
    assert path == path[..n] + path[n..];
    assert path[..n] == Repeat('/', n);
  }

  /** A path with one leading slash reaches the URL without it. */
  lemma UrlOfRootedPath(c: GitLabClient, t: string)
    requires t == [] || t[0] != '/'
    ensures c.Url("/" + t) == c.host + "/api/v" + c.apiVersion + "/" + t
  {
    UrlIgnoresLeadingSlash(c, t);
  }

  /**
   * `fetch_path` succeeds exactly on a 200 answer, with that answer's JSON;
   * a non-200 answer raises with its body.
   */
  lemma FetchPathStatus<T>(c: GitLabClient, replies: map<Request, Reply<T>>, path: string, params: seq<(string, string)>)
    ensures var q := c.RequestFor(path, params);
      (c.FetchPath(replies, path, params).Ok? <==> q in replies && replies[q].status == 200)
      && (c.FetchPath(replies, path, params).Ok? ==> c.FetchPath(replies, path, params).value == replies[q].json)
      && (q in replies && replies[q].status != 200 ==> c.FetchPath(replies, path, params) == Err(FetchFailed(replies[q].content)))
      && c.FetchPath(replies, "/" + path, params) == c.FetchPath(replies, path, params)
  {
    UrlIgnoresLeadingSlash(c, path);
  }

  /**
   * Every yielded pair comes from a branch last committed on or after
   * `from`, whose commit listing holds the yielded commit.
   */
  lemma {:induction false} BranchCommitsFrom(c: GitLabClient, server: GitlabServer, projectId: string, from: int,
                                             since: string, branches: seq<Branch>, k: nat) returns (j: nat)
    requires k < |c.BranchCommits(server, projectId, from, since, branches).items|
    ensures j < |branches| && branches[j].committedDay >= from
    ensures branches[j].name == c.BranchCommits(server, projectId, from, since, branches).items[k].0
    ensures c.BranchCommitList(server, projectId, since, branches[j].name).Ok?
    ensures c.BranchCommits(server, projectId, from, since, branches).items[k].1
            in c.BranchCommitList(server, projectId, since, branches[j].name).value
    decreases |branches|
  {
    var s := c.BranchCommits(server, projectId, from, since, branches);
    var rest := c.BranchCommits(server, projectId, from, since, branches[1..]);
    if branches[0].committedDay < from {
      j := BranchCommitsFrom(c, server, projectId, from, since, branches[1..], k);
      j := j + 1;
    } else {
      var cs := c.BranchCommitList(server, projectId, since, branches[0].name).value;
      if k < |cs| {
        assert s.items[k] == (branches[0].name, cs[k]);
        j := 0;
      } else {
        assert s.items[k] == rest.items[k - |cs|];
        j := BranchCommitsFrom(c, server, projectId, from, since, branches[1..], k - |cs|);
        j := j + 1;
      }
    }
  }

  /**
   * When nothing failed, every commit of every branch last committed on or
   * after `from` is yielded, tagged with its branch.
   */
  lemma {:induction false} BranchCommitsComplete(c: GitLabClient, server: GitlabServer, projectId: string, from: int,
                                                 since: string, branches: seq<Branch>, j: nat, x: CommitJson)
    requires c.BranchCommits(server, projectId, from, since, branches).failure.None?
    requires j < |branches| && branches[j].committedDay >= from
    requires c.BranchCommitList(server, projectId, since, branches[j].name).Ok?
    requires x in c.BranchCommitList(server, projectId, since, branches[j].name).value
    ensures (branches[j].name, x) in c.BranchCommits(server, projectId, from, since, branches).items
    decreases |branches|
  {
    var s := c.BranchCommits(server, projectId, from, since, branches);
    var rest := c.BranchCommits(server, projectId, from, since, branches[1..]);
    if j == 0 {
      var cs := c.BranchCommitList(server, projectId, since, branches[0].name).value;
      var i :| 0 <= i < |cs| && cs[i] == x;
      assert s.items[i] == (branches[0].name, x);
    } else {
      assert branches[1..][j - 1] == branches[j];
      if branches[0].committedDay >= from {
        assert c.BranchCommitList(server, projectId, since, branches[0].name).Ok?;
      }
      BranchCommitsComplete(c, server, projectId, from, since, branches[1..], j - 1, x);
    }
  }

  /**
   * The schedules come back one per listed schedule, in list order, each the
   * answer for its own id; the listing fails exactly when one fetch does.
   */
  lemma ExtendedSchedulesSpec(c: GitLabClient, server: GitlabServer, projectId: string, refs: seq<ScheduleRef>)
    ensures c.ExtendedSchedules(server, projectId, refs).Ok? <==>
      forall k :: 0 <= k < |refs| ==> c.FetchPath(server.schedules, SchedulePath(projectId, refs[k].id), []).Ok?
    ensures c.ExtendedSchedules(server, projectId, refs).Ok? ==>
      |c.ExtendedSchedules(server, projectId, refs).value| == |refs|
      && forall k :: 0 <= k < |refs| ==>
           c.FetchPath(server.schedules, SchedulePath(projectId, refs[k].id), [])
           == Ok(c.ExtendedSchedules(server, projectId, refs).value[k])
  {
    FetchEachSpec(refs, (r: ScheduleRef) => c.FetchPath(server.schedules, SchedulePath(projectId, r.id), []));
  }

  // ----- the commit listing, as a loop ---------------------------------------------

  /** `list_recent_commits`: the nested loop over branches and their commits. */
  method ListRecentCommits(c: GitLabClient, server: GitlabServer, projectId: string, from: int, isoDate: int -> string)
    returns (s: Stream<(string, CommitJson)>)
    ensures s == c.RecentCommits(server, projectId, from, isoDate(from))
  {
    var since := isoDate(from);
    var fetched := c.FetchPath(server.branches, BranchesPath(projectId), [("per_page", "1000")]);
    if fetched.Err? {
      return Stream([], Some(fetched.error));
    }
    var branches := fetched.value;
    var items: seq<(string, CommitJson)> := [];
    var i := 0;
    while i < |branches|
      invariant 0 <= i <= |branches|
      invariant var rest := c.BranchCommits(server, projectId, from, since, branches[i..]);
        Stream(items + rest.items, rest.failure) == c.BranchCommits(server, projectId, from, since, branches)
    {
      var b := branches[i];
      BranchCommitsStep(c, server, projectId, from, since, branches, i);
      if b.committedDay >= from {
        var got := c.BranchCommitList(server, projectId, since, b.name);
        if got.Err? {
          return Stream(items, Some(got.error));
        }
        ghost var rest := c.BranchCommits(server, projectId, from, since, branches[i + 1..]);
        assert items + (Tagged(b.name, got.value) + rest.items) == (items + Tagged(b.name, got.value)) + rest.items;
        items := AppendTagged(items, b.name, got.value);
      }
      i := i + 1;
    }
    s := Stream(items, None);
  }

  /** The stream from branch `i` on, in terms of the stream from branch `i + 1` on. */
  lemma BranchCommitsStep(c: GitLabClient, server: GitlabServer, projectId: string, from: int, since: string,
                          branches: seq<Branch>, i: nat)
    requires i < |branches|
    ensures var b := branches[i];
      var here := c.BranchCommits(server, projectId, from, since, branches[i..]);
      var rest := c.BranchCommits(server, projectId, from, since, branches[i + 1..]);
      (b.committedDay < from ==> here == rest)
      && (b.committedDay >= from && c.BranchCommitList(server, projectId, since, b.name).Err? ==>
            here == Stream([], Some(c.BranchCommitList(server, projectId, since, b.name).error)))
      && (b.committedDay >= from && c.BranchCommitList(server, projectId, since, b.name).Ok? ==>
            here == Stream(Tagged(b.name, c.BranchCommitList(server, projectId, since, b.name).value) + rest.items, rest.failure))
  {
    assert branches[i..][1..] == branches[i + 1..];
  }

  /** The inner loop of `list_recent_commits`: each commit of a branch, paired with the branch name. */
  method AppendTagged(items: seq<(string, CommitJson)>, name: string, cs: seq<CommitJson>)
    returns (r: seq<(string, CommitJson)>)
    ensures r == items + Tagged(name, cs)
  {
    r := items;
    var j := 0;
    while j < |cs|
      invariant 0 <= j <= |cs|
      invariant r == items + Tagged(name, cs[..j])
    {
      assert Tagged(name, cs[..j + 1]) == Tagged(name, cs[..j]) + [(name, cs[j])];
      r := r + [(name, cs[j])];
      j := j + 1;
    }
    assert cs[..|cs|] == cs;
  }

  // ----- importing commits ------------------------------------------------------------

  /** `get_user_profile`: the profile of the first gitlab account with this uid. */
  function GetUserProfile(accounts: map<Id, ServiceAccount>, bound: nat, uid: string): (r: Option<Id>)
    requires KeysBelow(accounts, bound)
    ensures r.Some? ==> exists a ::
      a in accounts && accounts[a] == ServiceAccount(uid, Gitlab, r.value)
      && forall b :: b in accounts && b < a ==> !(accounts[b].serviceType == Gitlab && accounts[b].uid == uid)
    ensures r.None? ==> forall a :: a in accounts ==> !(accounts[a].serviceType == Gitlab && accounts[a].uid == uid)
  {
    match FirstKey(accounts, (a: ServiceAccount) => a.serviceType == Gitlab && a.uid == uid, 0, bound)
    case Some(a) =>
      assert accounts[a] == ServiceAccount(uid, Gitlab, accounts[a].profile);
      Some(accounts[a].profile)
    case None => None
  }

  /** Any bound above the keys gives the same profile. */
  lemma GetUserProfileAnyBound(accounts: map<Id, ServiceAccount>, b1: nat, b2: nat, uid: string)
    requires KeysBelow(accounts, b1) && KeysBelow(accounts, b2)
    ensures GetUserProfile(accounts, b1, uid) == GetUserProfile(accounts, b2, uid)
  {
    var p := (a: ServiceAccount) => a.serviceType == Gitlab && a.uid == uid;
    var r1 := FirstKey(accounts, p, 0, b1);
    var r2 := FirstKey(accounts, p, 0, b2);
    if r1.Some? && r2.Some? {
      assert !(r1.value < r2.value) && !(r2.value < r1.value);
    }
  }

  /** The row `sync` saves for a commit; the branch is left blank. */
  function NewCommit(pid: Id, j: CommitJson, issue: Option<Id>, stats: Stats,
                     author: Option<Id>, committer: Option<Id>): GitCommit {
    GitCommit(Some(pid), issue, author, committer, j.id, j.shortId, j.title, j.authorName, j.authorEmail,
              j.committerName, j.committerEmail, j.createdDay, j.message,
              stats.additions, stats.deletions, stats.total, "")
  }

  /** A commit with hash `h` is stored. */
  ghost predicate HasHash(commits: map<Id, GitCommit>, h: string) {
    exists k :: k in commits && commits[k].hash == h
  }

  /** Every stored commit is still stored, unchanged. */
  predicate CommitsKept(before: map<Id, GitCommit>, after: map<Id, GitCommit>) {
    forall k :: k in before ==> k in after && after[k] == before[k]
  }

  /** `g` is the row built from listed commit `j` of project `pid` and its fetched stats. */
  predicate BuiltFrom(g: GitCommit, pid: Id, projectId: string, j: CommitJson, c: GitLabClient, server: GitlabServer) {
    var st := c.GetCommitStats(server, projectId, j.shortId);
    st.Ok? && g == NewCommit(pid, j, g.issue, st.value, g.authorProfile, g.committerProfile)
  }

  /** `g` is built from one of the listed `items` of its own project. */
  ghost predicate ImportedFrom(g: GitCommit, items: seq<(string, CommitJson)>, projects: map<Id, GitProject>,
                               c: GitLabClient, server: GitlabServer) {
    g.project.Some? && g.project.value in projects
    && exists q :: 0 <= q < |items| && BuiltFrom(g, g.project.value, projects[g.project.value].projectId, items[q].1, c, server)
  }

  /** The profiles are those of the gitlab accounts of its emails; the issue is the one its title names. */
  predicate Linked(g: GitCommit, accounts: map<Id, ServiceAccount>, bound: nat, issues: map<Id, Issue>, keys: seq<string>) {
    KeysBelow(accounts, bound)
    && g.authorProfile == GetUserProfile(accounts, bound, g.authorEmail)
    && g.committerProfile == GetUserProfile(accounts, bound, g.committerEmail)
    && IssueFits(issues, keys, g.title, g.issue)
  }

  /**
   * The errors importing listed commit `j` can raise: the Jira fetch of the
   * ticket key its title names raised (the login or the request failed), or
   * its stats cannot be fetched.
   */
  predicate ImportError(e: Error, j: CommitJson, projectId: string, keys: seq<string>, jira: JiraOracle,
                        c: GitLabClient, server: GitlabServer) {
    (ParseIssue(keys, j.title).Some? && ParseIssue(keys, j.title).value.1 !in jira
     && e == FetchFailed(ParseIssue(keys, j.title).value.1))
    || c.GetCommitStats(server, projectId, j.shortId) == Err(e)
  }

  lemma LinkedGrow(g: GitCommit, accounts: map<Id, ServiceAccount>, bound: nat, i1: map<Id, Issue>, i2: map<Id, Issue>, keys: seq<string>)
    requires Linked(g, accounts, bound, i1, keys) && IssuesGrow(i1, i2)
    ensures Linked(g, accounts, bound, i2, keys)
  {
  }

  /** The listing of a project, as `sync` asks for it. */
  function Recent(c: GitLabClient, server: GitlabServer, projects: map<Id, GitProject>, pid: Id, from: int, since: string)
    : Stream<(string, CommitJson)>
    requires pid in projects
  {
    c.RecentCommits(server, projects[pid].projectId, from, since)
  }

  /** Every listed commit of `items` is stored. */
  ghost predicate AllStored(commits: map<Id, GitCommit>, items: seq<(string, CommitJson)>) {
    forall q :: 0 <= q < |items| ==> HasHash(commits, items[q].1.id)
  }

  /** Once the next listed commit is stored too, one more of the listing is stored. */
  lemma AllStoredNext(c1: map<Id, GitCommit>, c2: map<Id, GitCommit>, items: seq<(string, CommitJson)>, i: nat)
    requires i < |items| && AllStored(c1, items[..i]) && CommitsKept(c1, c2) && HasHash(c2, items[i].1.id)
    ensures AllStored(c2, items[..i + 1])
  {
    AllStoredCommitsKept(c1, c2, items[..i]);
    assert items[..i + 1] == items[..i] + [items[i]];
  }

  lemma AllStoredCommitsKept(c1: map<Id, GitCommit>, c2: map<Id, GitCommit>, items: seq<(string, CommitJson)>)
    requires AllStored(c1, items) && CommitsKept(c1, c2)
    ensures AllStored(c2, items)
  {
    forall q | 0 <= q < |items| ensures HasHash(c2, items[q].1.id) {
      assert HasHash(c1, items[q].1.id);
      var k :| k in c1 && c1[k].hash == items[q].1.id;
      assert k in c2 && c2[k].hash == items[q].1.id;
    }
  }

  /** A project's recent listing ended without failure and every commit of it is stored. */
  ghost predicate ProjectSynced(commits: map<Id, GitCommit>, c: GitLabClient, server: GitlabServer,
                                projects: map<Id, GitProject>, pid: Id, from: int, since: string) {
    pid in projects && Recent(c, server, projects, pid, from, since).failure.None?
    && AllStored(commits, Recent(c, server, projects, pid, from, since).items)
  }

  lemma ProjectSyncedKept(c1: map<Id, GitCommit>, c2: map<Id, GitCommit>, c: GitLabClient, server: GitlabServer,
                          projects: map<Id, GitProject>, pid: Id, from: int, since: string)
    requires ProjectSynced(c1, c, server, projects, pid, from, since) && CommitsKept(c1, c2)
    ensures ProjectSynced(c2, c, server, projects, pid, from, since)
  {
    AllStoredCommitsKept(c1, c2, Recent(c, server, projects, pid, from, since).items);
  }

  /** Every project of `ids` synced, and `ids` lists every GitLab project: all of them synced. */
  lemma AllProjectsSynced(commits: map<Id, GitCommit>, c: GitLabClient, server: GitlabServer,
                          projects: map<Id, GitProject>, ids: seq<Id>, from: int, since: string)
    requires forall p :: 0 <= p < |ids| ==> ProjectSynced(commits, c, server, projects, ids[p], from, since)
    requires forall pid :: pid in projects && projects[pid].hosting == GitlabHosting ==> pid in ids
    ensures forall pid :: pid in projects && projects[pid].hosting == GitlabHosting ==>
      ProjectSynced(commits, c, server, projects, pid, from, since)
  {
    forall pid | pid in projects && projects[pid].hosting == GitlabHosting
      ensures ProjectSynced(commits, c, server, projects, pid, from, since)
    {
      var p :| 0 <= p < |ids| && ids[p] == pid;
    }
  }

  /**
   * Why syncing project `pid` stopped with `e`: importing one of its listed
   * commits raised, every commit listed before it being stored; or every
   * listed commit is stored and the listing itself then raised.
   */
  ghost predicate SyncError(e: Error, commits: map<Id, GitCommit>, pid: Id, projects: map<Id, GitProject>,
                            c: GitLabClient, server: GitlabServer, from: int, since: string,
                            keys: seq<string>, jira: JiraOracle)
    requires pid in projects
  {
    var listed := Recent(c, server, projects, pid, from, since);
    (exists q :: 0 <= q < |listed.items| && AllStored(commits, listed.items[..q])
       && !HasHash(commits, listed.items[q].1.id)
       && ImportError(e, listed.items[q].1, projects[pid].projectId, keys, jira, c, server))
    || (AllStored(commits, listed.items) && listed.failure == Some(e))
  }

  /**
   * `sync` stopped with `e` at gitlab project `pid`: syncing `pid` raised
   * `e`, and every gitlab project with a smaller key was synced in full.
   */
  ghost predicate StoppedAt(e: Error, commits: map<Id, GitCommit>, pid: Id, projects: map<Id, GitProject>,
                            c: GitLabClient, server: GitlabServer, from: int, since: string,
                            keys: seq<string>, jira: JiraOracle) {
    pid in projects && projects[pid].hosting == GitlabHosting
    && SyncError(e, commits, pid, projects, c, server, from, since, keys, jira)
    && forall p :: p in projects && projects[p].hosting == GitlabHosting && p < pid ==>
         ProjectSynced(commits, c, server, projects, p, from, since)
  }

  /**
   * When syncing the `i`-th listed project raises, `sync` stops there: the
   * projects listed before it, which are exactly the gitlab projects with
   * smaller keys, were synced in full.
   */
  lemma StoppedAtListed(e: Error, commits: map<Id, GitCommit>, c: GitLabClient, server: GitlabServer,
                        projects: map<Id, GitProject>, bound: nat, ids: seq<Id>, i: nat, from: int, since: string,
                        keys: seq<string>, jira: JiraOracle)
    requires ids == GitlabProjects(projects, 0, bound) && KeysBelow(projects, bound) && i < |ids|
    requires forall p :: 0 <= p < i ==> ProjectSynced(commits, c, server, projects, ids[p], from, since)
    requires ids[i] in projects && SyncError(e, commits, ids[i], projects, c, server, from, since, keys, jira)
    ensures StoppedAt(e, commits, ids[i], projects, c, server, from, since, keys, jira)
  {
    forall pid | pid in projects && projects[pid].hosting == GitlabHosting && pid < ids[i]
      ensures ProjectSynced(commits, c, server, projects, pid, from, since)
    {
      var p :| 0 <= p < |ids| && ids[p] == pid;
    }
  }

  /** The gitlab-hosted projects with keys in `[lo, bound)`, in key order (standing for the database's order). */
  function GitlabProjects(projects: map<Id, GitProject>, lo: nat, bound: nat): (r: seq<Id>)
    ensures forall k :: 0 <= k < |r| ==> r[k] in projects && projects[r[k]].hosting == GitlabHosting && lo <= r[k] < bound
    ensures forall p :: p in projects && projects[p].hosting == GitlabHosting && lo <= p < bound ==> p in r
    ensures forall a, b :: 0 <= a < b < |r| ==> r[a] < r[b]
    decreases bound - lo
  {
    if lo >= bound then []
    else if lo in projects && projects[lo].hosting == GitlabHosting then [lo] + GitlabProjects(projects, lo + 1, bound)
    else GitlabProjects(projects, lo + 1, bound)
  }

  lemma LinkedRebound(g: GitCommit, accounts: map<Id, ServiceAccount>, b1: nat, b0: nat, issues: map<Id, Issue>, keys: seq<string>)
    requires Linked(g, accounts, b1, issues, keys) && KeysBelow(accounts, b0)
    ensures Linked(g, accounts, b0, issues, keys)
  {
    GetUserProfileAnyBound(accounts, b0, b1, g.authorEmail);
    GetUserProfileAnyBound(accounts, b0, b1, g.committerEmail);
  }

  /**
   * Going from `c0` to `commits`, one project's import kept every stored
   * commit and added only rows built from its listed `items`.
   */
  ghost predicate ProjectImported(c0: map<Id, GitCommit>, commits: map<Id, GitCommit>, pid: Id,
                                  items: seq<(string, CommitJson)>, projects: map<Id, GitProject>,
                                  c: GitLabClient, server: GitlabServer, accounts: map<Id, ServiceAccount>, bound: nat,
                                  issues: map<Id, Issue>, keys: seq<string>) {
    CommitsKept(c0, commits)
    && forall k :: k in commits && k !in c0 ==>
         commits[k].project == Some(pid) && ImportedFrom(commits[k], items, projects, c, server)
         && Linked(commits[k], accounts, bound, issues, keys)
  }

  lemma {:induction false} ProjectImportedStep(c0: map<Id, GitCommit>, c1: map<Id, GitCommit>, c2: map<Id, GitCommit>,
                                               pid: Id, items: seq<(string, CommitJson)>, i: nat,
                                               projects: map<Id, GitProject>, c: GitLabClient, server: GitlabServer,
                                               accounts: map<Id, ServiceAccount>, b0: nat, b1: nat,
                                               is1: map<Id, Issue>, is2: map<Id, Issue>, keys: seq<string>)
    requires i < |items| && pid in projects && KeysBelow(accounts, b0)
    requires ProjectImported(c0, c1, pid, items, projects, c, server, accounts, b0, is1, keys)
    requires CommitsKept(c1, c2) && IssuesGrow(is1, is2)
    requires forall k :: k in c2 && k !in c1 ==>
      BuiltFrom(c2[k], pid, projects[pid].projectId, items[i].1, c, server) && c2[k].project == Some(pid)
      && Linked(c2[k], accounts, b1, is2, keys)
    ensures ProjectImported(c0, c2, pid, items, projects, c, server, accounts, b0, is2, keys)
  {
    forall k | k in c2 && k !in c0
      ensures c2[k].project == Some(pid) && ImportedFrom(c2[k], items, projects, c, server)
              && Linked(c2[k], accounts, b0, is2, keys)
    {
      if k in c1 {
        assert c2[k] == c1[k];
        LinkedGrow(c1[k], accounts, b0, is1, is2, keys);
      } else {
        LinkedRebound(c2[k], accounts, b1, b0, is2, keys);
        assert BuiltFrom(c2[k], c2[k].project.value, projects[c2[k].project.value].projectId, items[i].1, c, server);
      }
    }
  }

  /**
   * Going from `c0` to `commits`, the sync kept every stored commit and added
   * only rows built from the listing of their own gitlab project, linked to
   * the profiles of their emails and the issue their title names.
   */
  ghost predicate Synced(c0: map<Id, GitCommit>, commits: map<Id, GitCommit>, projects: map<Id, GitProject>,
                         c: GitLabClient, server: GitlabServer, from: int, since: string,
                         accounts: map<Id, ServiceAccount>, bound: nat, issues: map<Id, Issue>, keys: seq<string>) {
    CommitsKept(c0, commits)
    && forall k :: k in commits && k !in c0 ==>
         commits[k].project.Some? && commits[k].project.value in projects
         && projects[commits[k].project.value].hosting == GitlabHosting
         && ImportedFrom(commits[k], Recent(c, server, projects, commits[k].project.value, from, since).items, projects, c, server)
         && Linked(commits[k], accounts, bound, issues, keys)
  }

  lemma {:induction false} SyncedStep(c0: map<Id, GitCommit>, c1: map<Id, GitCommit>, c2: map<Id, GitCommit>, pid: Id,
                                      projects: map<Id, GitProject>, c: GitLabClient, server: GitlabServer, from: int,
                                      since: string, accounts: map<Id, ServiceAccount>, b0: nat, b1: nat,
                                      is1: map<Id, Issue>, is2: map<Id, Issue>, keys: seq<string>)
    requires pid in projects && projects[pid].hosting == GitlabHosting && KeysBelow(accounts, b0)
    requires Synced(c0, c1, projects, c, server, from, since, accounts, b0, is1, keys)
    requires ProjectImported(c1, c2, pid, Recent(c, server, projects, pid, from, since).items, projects, c, server,
                             accounts, b1, is2, keys)
    requires IssuesGrow(is1, is2)
    ensures Synced(c0, c2, projects, c, server, from, since, accounts, b0, is2, keys)
  {
    forall k | k in c2 && k !in c0
      ensures c2[k].project.Some? && c2[k].project.value in projects
         && projects[c2[k].project.value].hosting == GitlabHosting
         && ImportedFrom(c2[k], Recent(c, server, projects, c2[k].project.value, from, since).items, projects, c, server)
         && Linked(c2[k], accounts, b0, is2, keys)
    {
      if k in c1 {
        assert c2[k] == c1[k];
        LinkedGrow(c1[k], accounts, b0, is1, is2, keys);
      } else {
        LinkedRebound(c2[k], accounts, b1, b0, is2, keys);
      }
    }
  }

  function Prepend(p: seq<Schedule>, r: Result<seq<Schedule>>): Result<seq<Schedule>> {
    match r
    case Ok(v) => Ok(p + v)
    case Err(e) => Err(e)
  }

  lemma PrependNil(r: Result<seq<Schedule>>)
    ensures Prepend([], r) == r
  {
    if r.Ok? {
      assert [] + r.value == r.value;
    }
  }

  /** One more fetched schedule moves from the remaining listing to the results. */
  lemma ExtendedStep(c: GitLabClient, server: GitlabServer, projectId: string, refs: seq<ScheduleRef>, i: nat,
                     results: seq<Schedule>)
    requires i < |refs|
    ensures var head := c.FetchPath(server.schedules, SchedulePath(projectId, refs[i].id), []);
      (head.Err? ==> Prepend(results, c.ExtendedSchedules(server, projectId, refs[i..])) == Err(head.error))
      && (head.Ok? ==> Prepend(results, c.ExtendedSchedules(server, projectId, refs[i..]))
                       == Prepend(results + [head.value], c.ExtendedSchedules(server, projectId, refs[i + 1..])))
  {
    assert refs[i..][1..] == refs[i + 1..];
    var head := c.FetchPath(server.schedules, SchedulePath(projectId, refs[i].id), []);
    var rest := c.ExtendedSchedules(server, projectId, refs[i + 1..]);
    if head.Ok? && rest.Ok? {
      assert results + ([head.value] + rest.value) == (results + [head.value]) + rest.value;
    }
  }

  /** `GitlabLoader`: the client and an issue loader without autoupdate. */
  class GitlabLoader {
    const client: GitLabClient
    const issueLoader: IssueLoader

    constructor (env: map<string, string>)
      ensures client == NewClient(env) && client.apiVersion == "4"
      ensures fresh(issueLoader) && issueLoader.issuesDict == map[] && !issueLoader.autoupdate
    {
      client := NewClient(env);
      issueLoader := new IssueLoader(false);
    }

    /**
     * One listed commit: skipped when its hash is stored; otherwise its issue
     * (errors propagate), its stats (errors propagate) and its profiles are
     * looked up and the new row is saved.
     */
    method ImportCommit(store: Store, server: GitlabServer, jira: JiraOracle, baseUrl: string, keys: seq<string>,
                        pid: Id, j: CommitJson) returns (r: Result<()>)
      requires store.Valid() && CacheOk(issueLoader.issuesDict, store.issues) && pid in store.projects
      modifies issueLoader`issuesDict, store`issues, store`nextId, store`commits
      ensures store.Valid() && CacheOk(issueLoader.issuesDict, store.issues)
      ensures CommitsKept(old(store.commits), store.commits) && IssuesGrow(old(store.issues), store.issues)
      ensures old(HasHash(store.commits, j.id)) ==>
        r.Ok? && store.commits == old(store.commits) && store.issues == old(store.issues)
      ensures forall k :: k in store.commits && k !in old(store.commits) ==>
        BuiltFrom(store.commits[k], pid, store.projects[pid].projectId, j, client, server)
        && store.commits[k].project == Some(pid)
        && Linked(store.commits[k], store.accounts, old(store.nextId), store.issues, keys)
      ensures r.Ok? ==> HasHash(store.commits, j.id)
      ensures r.Err? ==>
        store.commits == old(store.commits)
        && ImportError(r.error, j, store.projects[pid].projectId, keys, jira, client, server)
      ensures !old(HasHash(store.commits, j.id)) ==>
        var res := ResolveIssue(old(issueLoader.issuesDict), issueLoader.autoupdate, old(store.issues),
                                old(store.nextId), jira, baseUrl, keys, j.title);
        var stats := client.GetCommitStats(server, store.projects[pid].projectId, j.shortId);
        issueLoader.issuesDict == res.cache && store.issues == res.issues
        && (r.Err? <==> res.result.Err? || stats.Err?)
        && forall k :: k in store.commits && k !in old(store.commits) ==>
             res.result.Ok? && store.commits[k].issue == res.result.value
    {
      ghost var cache0, issues0, n0 := issueLoader.issuesDict, store.issues, store.nextId;
      var found := store.FindCommit(j.id);
      if found.Some? {
        return Ok(());
      }
      r := ImportNewCommit(store, server, jira, baseUrl, keys, pid, j);
      ghost var res := ResolveIssue(cache0, issueLoader.autoupdate, issues0, n0, jira, baseUrl, keys, j.title);
      if res.result.Err? {
        ResolveErrorIsMissingTicket(cache0, issueLoader.autoupdate, issues0, n0, jira, baseUrl, keys, j.title);
      }
    }

    /** A listed commit whose hash is not stored: its issue, its stats and its profiles, then the new row. */
    method ImportNewCommit(store: Store, server: GitlabServer, jira: JiraOracle, baseUrl: string, keys: seq<string>,
                           pid: Id, j: CommitJson) returns (r: Result<()>)
      requires store.Valid() && CacheOk(issueLoader.issuesDict, store.issues) && pid in store.projects
      modifies issueLoader`issuesDict, store`issues, store`nextId, store`commits
      ensures store.Valid() && CacheOk(issueLoader.issuesDict, store.issues)
      ensures CommitsKept(old(store.commits), store.commits) && IssuesGrow(old(store.issues), store.issues)
      ensures forall k :: k in store.commits && k !in old(store.commits) ==>
        BuiltFrom(store.commits[k], pid, store.projects[pid].projectId, j, client, server)
        && store.commits[k].project == Some(pid)
        && Linked(store.commits[k], store.accounts, old(store.nextId), store.issues, keys)
      ensures r.Ok? ==> HasHash(store.commits, j.id)
      ensures var res := ResolveIssue(old(issueLoader.issuesDict), issueLoader.autoupdate, old(store.issues),
                                      old(store.nextId), jira, baseUrl, keys, j.title);
        var stats := client.GetCommitStats(server, store.projects[pid].projectId, j.shortId);
        issueLoader.issuesDict == res.cache && store.issues == res.issues
        && (res.result.Err? ==> r == Err(res.result.error))
        && (res.result.Ok? && stats.Err? ==> r == Err(stats.error))
        && (res.result.Ok? && stats.Ok? ==> (r.Err? <==> old(HasHash(store.commits, j.id))))
        && forall k :: k in store.commits && k !in old(store.commits) ==>
             res.result.Ok? && store.commits[k].issue == res.result.value
      ensures r.Err? ==> store.commits == old(store.commits)
    {
      ghost var n0 := store.nextId;
      var issue := issueLoader.GetIssue(store, jira, baseUrl, keys, j.title);
      if issue.Err? {
        return Err(issue.error);
      }
      var stats := client.GetCommitStats(server, store.projects[pid].projectId, j.shortId);
      if stats.Err? {
        return Err(stats.error);
      }
      r := SaveCommit(store, keys, pid, j, issue.value, stats.value, n0);
    }

    /** The row of a listed commit, with its issue and stats found, linked to its profiles and saved. */
    method SaveCommit(store: Store, keys: seq<string>, pid: Id, j: CommitJson, issue: Option<Id>, stats: Stats,
                      ghost n0: nat) returns (r: Result<()>)
      requires store.Valid() && pid in store.projects && KeysBelow(store.accounts, n0)
      requires IssueFits(store.issues, keys, j.title, issue)
      modifies store`commits, store`nextId
      ensures store.Valid() && CommitsKept(old(store.commits), store.commits)
      ensures forall k :: k in store.commits && k !in old(store.commits) ==>
        store.commits[k] == NewCommit(pid, j, issue, stats, GetUserProfile(store.accounts, n0, j.authorEmail),
                                      GetUserProfile(store.accounts, n0, j.committerEmail))
      ensures r.Ok? ==> HasHash(store.commits, j.id)
      ensures r.Err? <==> old(HasHash(store.commits, j.id))
      ensures r.Err? ==> r.error.IntegrityError? && store.commits == old(store.commits)
    {
      var author := GetUserProfile(store.accounts, store.nextId, j.authorEmail);
      var committer := GetUserProfile(store.accounts, store.nextId, j.committerEmail);
      GetUserProfileAnyBound(store.accounts, n0, store.nextId, j.authorEmail);
      GetUserProfileAnyBound(store.accounts, n0, store.nextId, j.committerEmail);
      var g := NewCommit(pid, j, issue, stats, author, committer);
      var saved := store.CreateCommit(g);
      if saved.Err? {
        return Err(saved.error);
      }
      assert store.commits[saved.value].hash == j.id;
      r := Ok(());
    }

    /** The next listed commit of a project, imported. */
    method ImportNext(store: Store, server: GitlabServer, jira: JiraOracle, baseUrl: string, keys: seq<string>,
                      pid: Id, items: seq<(string, CommitJson)>, i: nat, ghost c0: map<Id, GitCommit>, ghost n0: nat)
      returns (r: Result<()>)
      requires i < |items| && store.Valid() && CacheOk(issueLoader.issuesDict, store.issues)
      requires pid in store.projects && KeysBelow(store.accounts, n0)
      requires ProjectImported(c0, store.commits, pid, items, store.projects, client, server,
                               store.accounts, n0, store.issues, keys)
      requires AllStored(store.commits, items[..i])
      modifies issueLoader`issuesDict, store`issues, store`nextId, store`commits
      ensures store.Valid() && CacheOk(issueLoader.issuesDict, store.issues)
      ensures IssuesGrow(old(store.issues), store.issues)
      ensures ProjectImported(c0, store.commits, pid, items, store.projects, client, server,
                              store.accounts, n0, store.issues, keys)
      ensures r.Ok? ==> AllStored(store.commits, items[..i + 1])
      ensures r.Err? ==>
        store.commits == old(store.commits) && !HasHash(store.commits, items[i].1.id)
        && ImportError(r.error, items[i].1, store.projects[pid].projectId, keys, jira, client, server)
    {
      ghost var c1, is1, n1 := store.commits, store.issues, store.nextId;
      r := ImportCommit(store, server, jira, baseUrl, keys, pid, items[i].1);
      ProjectImportedStep(c0, c1, store.commits, pid, items, i, store.projects, client, server,
                          store.accounts, n0, n1, is1, store.issues, keys);
      if r.Ok? {
        AllStoredNext(c1, store.commits, items, i);
      }
    }

    /** One project's listed commits, imported in order; the first error aborts. */
    method ImportCommits(store: Store, server: GitlabServer, jira: JiraOracle, baseUrl: string, keys: seq<string>,
                         pid: Id, items: seq<(string, CommitJson)>) returns (r: Result<()>)
      requires store.Valid() && CacheOk(issueLoader.issuesDict, store.issues) && pid in store.projects
      modifies issueLoader`issuesDict, store`issues, store`nextId, store`commits
      ensures store.Valid() && CacheOk(issueLoader.issuesDict, store.issues)
      ensures IssuesGrow(old(store.issues), store.issues)
      ensures ProjectImported(old(store.commits), store.commits, pid, items, store.projects, client, server,
                              store.accounts, old(store.nextId), store.issues, keys)
      ensures r.Ok? ==> AllStored(store.commits, items)
      ensures r.Err? ==>
        exists q :: 0 <= q < |items| && AllStored(store.commits, items[..q])
          && !HasHash(store.commits, items[q].1.id)
          && ImportError(r.error, items[q].1, store.projects[pid].projectId, keys, jira, client, server)
    {
      ghost var c0, i0, n0 := store.commits, store.issues, store.nextId;
      var i := 0;
      while i < |items|
        invariant 0 <= i <= |items|
        invariant store.Valid() && CacheOk(issueLoader.issuesDict, store.issues)
        invariant IssuesGrow(i0, store.issues) && KeysBelow(store.accounts, n0)
        invariant ProjectImported(c0, store.commits, pid, items, store.projects, client, server,
                                  store.accounts, n0, store.issues, keys)
        invariant AllStored(store.commits, items[..i])
      {
        var one := ImportNext(store, server, jira, baseUrl, keys, pid, items, i, c0, n0);
        if one.Err? {
          assert AllStored(store.commits, items[..i]) && !HasHash(store.commits, items[i].1.id);
          return one;
        }
        i := i + 1;
      }
      assert items[..i] == items;
      r := Ok(());
    }

    /** The recent commits of the `i`-th gitlab project, listed and imported. */
    method SyncProject(store: Store, server: GitlabServer, jira: JiraOracle, baseUrl: string, keys: seq<string>,
                       from: int, isoDate: int -> string, ids: seq<Id>, i: nat,
                       ghost c0: map<Id, GitCommit>, ghost n0: nat) returns (r: Result<()>)
      requires i < |ids| && ids[i] in store.projects && store.projects[ids[i]].hosting == GitlabHosting
      requires store.Valid() && CacheOk(issueLoader.issuesDict, store.issues) && KeysBelow(store.accounts, n0)
      requires Synced(c0, store.commits, store.projects, client, server, from, isoDate(from),
                      store.accounts, n0, store.issues, keys)
      requires forall p :: 0 <= p < i ==> ProjectSynced(store.commits, client, server, store.projects, ids[p], from, isoDate(from))
      modifies issueLoader`issuesDict, store`issues, store`nextId, store`commits
      ensures store.Valid() && CacheOk(issueLoader.issuesDict, store.issues)
      ensures IssuesGrow(old(store.issues), store.issues)
      ensures Synced(c0, store.commits, store.projects, client, server, from, isoDate(from),
                     store.accounts, n0, store.issues, keys)
      ensures r.Ok? ==> forall p :: 0 <= p <= i ==>
        ProjectSynced(store.commits, client, server, store.projects, ids[p], from, isoDate(from))
      ensures forall p :: 0 <= p < i ==>
        ProjectSynced(store.commits, client, server, store.projects, ids[p], from, isoDate(from))
      ensures r.Err? ==> SyncError(r.error, store.commits, ids[i], store.projects, client, server, from, isoDate(from),
                                   keys, jira)
    {
      var pid := ids[i];
      var listed := ListRecentCommits(client, server, store.projects[pid].projectId, from, isoDate);
      ghost var c1, is1, n1 := store.commits, store.issues, store.nextId;
      r := ImportCommits(store, server, jira, baseUrl, keys, pid, listed.items);
      SyncedStep(c0, c1, store.commits, pid, store.projects, client, server, from, isoDate(from),
                 store.accounts, n0, n1, is1, store.issues, keys);
      forall p | 0 <= p < i
        ensures ProjectSynced(store.commits, client, server, store.projects, ids[p], from, isoDate(from))
      {
        ProjectSyncedKept(c1, store.commits, client, server, store.projects, ids[p], from, isoDate(from));
      }
      if r.Err? {
        return;
      }
      if listed.failure.Some? {
        return Err(listed.failure.value);
      }
    }

    /**
     * `sync`: for each gitlab project in key order, the recent commits are
     * imported as they are listed; the first error, from the listing or from
     * an import, aborts.
     */
    method Sync(store: Store, server: GitlabServer, jira: JiraOracle, baseUrl: string, keys: seq<string>,
                from: int, isoDate: int -> string) returns (r: Result<()>)
      requires store.Valid() && CacheOk(issueLoader.issuesDict, store.issues)
      modifies issueLoader`issuesDict, store`issues, store`nextId, store`commits
      ensures store.Valid() && CacheOk(issueLoader.issuesDict, store.issues)
      ensures IssuesGrow(old(store.issues), store.issues)
      ensures Synced(old(store.commits), store.commits, store.projects, client, server, from, isoDate(from),
                     store.accounts, old(store.nextId), store.issues, keys)
      ensures r.Ok? ==> forall pid :: pid in store.projects && store.projects[pid].hosting == GitlabHosting ==>
        ProjectSynced(store.commits, client, server, store.projects, pid, from, isoDate(from))
      ensures r.Err? ==>
        exists pid :: StoppedAt(r.error, store.commits, pid, store.projects, client, server, from, isoDate(from),
                                keys, jira)
    {
      ghost var c0, i0, n0 := store.commits, store.issues, store.nextId;
      var ids := GitlabProjects(store.projects, 0, store.nextId);
      var i := 0;
      while i < |ids|
        invariant 0 <= i <= |ids|
        invariant store.Valid() && CacheOk(issueLoader.issuesDict, store.issues)
        invariant IssuesGrow(i0, store.issues) && KeysBelow(store.accounts, n0)
        invariant Synced(c0, store.commits, store.projects, client, server, from, isoDate(from),
                         store.accounts, n0, store.issues, keys)
        invariant forall p :: 0 <= p < i ==>
          ProjectSynced(store.commits, client, server, store.projects, ids[p], from, isoDate(from))
      {
        var one := SyncProject(store, server, jira, baseUrl, keys, from, isoDate, ids, i, c0, n0);
        if one.Err? {
          StoppedAtListed(one.error, store.commits, client, server, store.projects, n0, ids, i, from, isoDate(from),
                          keys, jira);
          return one;
        }
        i := i + 1;
      }
      AllProjectsSynced(store.commits, client, server, store.projects, ids, from, isoDate(from));
      r := Ok(());
    }

    /** `get_pipeline_schedules`: the loop that fetches each listed schedule in full. */
    method GetPipelineSchedules(server: GitlabServer, projectId: string) returns (r: Result<seq<Schedule>>)
      ensures r == client.PipelineSchedules(server, projectId)
    {
      var listed := client.FetchPath(server.scheduleLists, SchedulesPath(projectId), []);
      if listed.Err? {
        return Err(listed.error);
      }
      var refs := listed.value;
      var results: seq<Schedule> := [];
      var i := 0;
      assert refs[i..] == refs;
      PrependNil(client.ExtendedSchedules(server, projectId, refs));
      while i < |refs|
        invariant 0 <= i <= |refs|
        invariant client.ExtendedSchedules(server, projectId, refs)
                  == Prepend(results, client.ExtendedSchedules(server, projectId, refs[i..]))
      {
        ExtendedStep(client, server, projectId, refs, i, results);
        var extended := client.FetchPath(server.schedules, SchedulePath(projectId, refs[i].id), []);
        if extended.Err? {
          return Err(extended.error);
        }
        results := results + [extended.value];
        i := i + 1;
      }
      assert refs[i..] == [];
      assert results + [] == results;
      r := Ok(results);
    }
  }
}
