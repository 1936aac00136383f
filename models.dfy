/**
 * The record shapes of the tracker database (profiles, service accounts,
 * issues, worklogs, git projects and commits), their uniqueness and
 * on-delete rules, and the store that holds them.
 */
module Models {
  import opened Wrappers

  type Id = nat

  /** The kind of external account a service account stands for. */
  datatype ServiceType = System | Upwork | Hipchat | Jira | Gitlab | Github | SMon
  {
    /** The enum member's name, as shown next to a profile. */
    function Name(): string {
      match this
      case System => "system"
      case Upwork => "upwork"
      case Hipchat => "hipchat"
      case Jira => "jira"
      case Gitlab => "gitlab"
      case Github => "github"
      case SMon => "smon"
    }
  }

  datatype IssueSystem = JiraIssues | GithubIssues

  datatype GitHosting = GitlabHosting | GithubHosting

  /** Where a worklog was imported from. */
  datatype WorklogSystem = UpworkLogs | SMonLogs | JiraLogs

  datatype UserProfile = UserProfile(name: string, active: bool)

  datatype ServiceAccount = ServiceAccount(uid: string, serviceType: ServiceType, profile: Id)

  datatype Issue = Issue(
    system: IssueSystem,
    issueId: string,
    title: string,
    description: string,
    url: string,
    originalEstimate: Option<real>,
    remainingEstimate: Option<real>,
    tags: seq<string>)

  /** Dates are day ordinals; `fromTime` and `toTime` are epoch seconds. */
  datatype Worklog = Worklog(
    uniqId: Option<string>,
    workDate: int,
    userId: string,
    userName: string,
    hours: real,
    description: string,
    system: WorklogSystem,
    fromTime: Option<int>,
    toTime: Option<int>,
    profile: Option<Id>,
    issue: Option<Id>)

  datatype GitProject = GitProject(projectId: string, projectUrl: string, name: string, hosting: GitHosting)

  /** Dates are day ordinals. */
  datatype GitCommit = GitCommit(
    project: Option<Id>,
    issue: Option<Id>,
    authorProfile: Option<Id>,
    committerProfile: Option<Id>,
    hash: string,
    shortId: string,
    title: string,
    authorName: string,
    authorEmail: string,
    committerName: string,
    committerEmail: string,
    createdDay: int,
    message: string,
    additions: Option<int>,
    deletions: Option<int>,
    total: Option<int>,
    branch: string)

  /** What a worklog is listed as: its issue when it has one, otherwise its own text. */
  datatype Shiny = LinkedIssue(issue: Id) | Description(text: string)

  function ShinyDescription(w: Worklog): Shiny {
    if w.issue.Some? then LinkedIssue(w.issue.value) else Description(w.description)
  }

  /** Two worklogs are listed alike exactly when they share an issue, or both lack one and share their text. */
  lemma ShinyDescriptionAlike(a: Worklog, b: Worklog)
    ensures ShinyDescription(a) == ShinyDescription(b) <==>
      a.issue == b.issue && (a.issue.None? ==> a.description == b.description)
  {
  }

  // ----- uniqueness constraints -------------------------------------------

  /** A non-null `uniq_id` identifies one worklog, whatever its system. */
  predicate UniqIdsUnique(m: map<Id, Worklog>) {
    forall a, b :: a in m && b in m && m[a].uniqId.Some? && m[a].uniqId == m[b].uniqId ==> a == b
  }

  /** `(issue_system, issue_id)` identifies one issue. */
  predicate IssueKeysUnique(m: map<Id, Issue>) {
    forall a, b :: a in m && b in m && m[a].system == m[b].system && m[a].issueId == m[b].issueId ==> a == b
  }

  /** A commit hash identifies one commit. */
  predicate HashesUnique(m: map<Id, GitCommit>) {
    forall a, b :: a in m && b in m && m[a].hash == m[b].hash ==> a == b
  }

  /** The issue with key `(s, key)` among `issues`; at most one matches where keys are unique. */
  function FindIssueIn(issues: map<Id, Issue>, bound: nat, s: IssueSystem, key: string): (r: Option<Id>)
    requires KeysBelow(issues, bound)
    ensures r.Some? ==> r.value in issues && issues[r.value].system == s && issues[r.value].issueId == key
    ensures r.None? ==> forall k :: k in issues ==> !(issues[k].system == s && issues[k].issueId == key)
  {
    FirstKey(issues, (i: Issue) => i.system == s && i.issueId == key, 0, bound)
  }

  // ----- foreign keys --------------------------------------------------------

  predicate KeysBelow<V>(m: map<Id, V>, n: nat) {
    forall k :: k in m ==> k < n
  }

  predicate WorklogRefOk(w: Worklog, profiles: map<Id, UserProfile>, issues: map<Id, Issue>) {
    (w.profile.Some? ==> w.profile.value in profiles) && (w.issue.Some? ==> w.issue.value in issues)
  }

  predicate CommitRefOk(c: GitCommit, projects: map<Id, GitProject>, issues: map<Id, Issue>, profiles: map<Id, UserProfile>) {
    (c.project.Some? ==> c.project.value in projects)
    && (c.issue.Some? ==> c.issue.value in issues)
    && (c.authorProfile.Some? ==> c.authorProfile.value in profiles)
    && (c.committerProfile.Some? ==> c.committerProfile.value in profiles)
  }

  predicate AccountRefs(accounts: map<Id, ServiceAccount>, profiles: map<Id, UserProfile>) {
    forall a :: a in accounts ==> accounts[a].profile in profiles
  }

  predicate WorklogRefs(worklogs: map<Id, Worklog>, profiles: map<Id, UserProfile>, issues: map<Id, Issue>) {
    forall k :: k in worklogs ==> WorklogRefOk(worklogs[k], profiles, issues)
  }

  predicate CommitRefs(commits: map<Id, GitCommit>, projects: map<Id, GitProject>, issues: map<Id, Issue>, profiles: map<Id, UserProfile>) {
    forall k :: k in commits ==> CommitRefOk(commits[k], projects, issues, profiles)
  }

  /** The profiles called `name`. */
  function NamedProfiles(profiles: map<Id, UserProfile>, name: string): set<Id> {
    set k | k in profiles && profiles[k].name == name
  }

  /** The accounts of type `t` with this uid that belong to profile `p`. */
  function MatchingAccounts(accounts: map<Id, ServiceAccount>, t: ServiceType, uid: string, p: Id): set<Id> {
    set k | k in accounts && accounts[k] == ServiceAccount(uid, t, p)
  }

  /** The worklogs of `system` dated inside `[lo, hi]`. */
  predicate InWindow(w: Worklog, system: WorklogSystem, lo: int, hi: int) {
    w.system == system && lo <= w.workDate <= hi
  }

  /**
   * The smallest key at or above `from` whose value satisfies `p`: what
   * `.filter(...).first()` returns on a table without an ordering.
   */
  function FirstKey<V>(m: map<Id, V>, p: V -> bool, from: nat, bound: nat): (r: Option<Id>)
    requires forall k :: k in m ==> k < bound
    ensures r.Some? ==> from <= r.value && r.value in m && p(m[r.value])
    ensures r.Some? ==> forall k :: k in m && from <= k < r.value ==> !p(m[k])
    ensures r.None? ==> forall k :: k in m && from <= k ==> !p(m[k])
    decreases bound - from
  {
    if from >= bound then None
    else if from in m && p(m[from]) then Some(from)
    else FirstKey(m, p, from + 1, bound)
  }

  /** Keys below the next free key, the table constraints and the foreign keys. */
  ghost predicate TablesOk(profiles: map<Id, UserProfile>, accounts: map<Id, ServiceAccount>, issues: map<Id, Issue>,
                           worklogs: map<Id, Worklog>, projects: map<Id, GitProject>, commits: map<Id, GitCommit>,
                           nextId: nat)
  {
    KeysBelow(profiles, nextId) && KeysBelow(accounts, nextId) && KeysBelow(issues, nextId)
    && KeysBelow(worklogs, nextId) && KeysBelow(projects, nextId) && KeysBelow(commits, nextId)
    && UniqIdsUnique(worklogs)
    && IssueKeysUnique(issues)
    && HashesUnique(commits)
    && AccountRefs(accounts, profiles)
    && WorklogRefs(worklogs, profiles, issues)
    && CommitRefs(commits, projects, issues, profiles)
  }

  /** The database: one map per table, from primary key to row, and the next free key. */
  class Store {
    var profiles: map<Id, UserProfile>
    var accounts: map<Id, ServiceAccount>
    var issues: map<Id, Issue>
    var worklogs: map<Id, Worklog>
    var projects: map<Id, GitProject>
    var commits: map<Id, GitCommit>
    var nextId: Id

    predicate WorklogRefsOk(w: Worklog)
      reads this
    {
      WorklogRefOk(w, profiles, issues)
    }

    predicate CommitRefsOk(c: GitCommit)
      reads this
    {
      CommitRefOk(c, projects, issues, profiles)
    }

    /** The table constraints and foreign keys. */
    ghost predicate Valid()
      reads this
    {
      TablesOk(profiles, accounts, issues, worklogs, projects, commits, nextId)
    }

    constructor ()
      ensures Valid()
      ensures profiles == map[] && accounts == map[] && issues == map[] && worklogs == map[]
      ensures projects == map[] && commits == map[]
    {
      profiles, accounts, issues, worklogs := map[], map[], map[], map[];
      projects, commits := map[], map[];
      nextId := 0;
    }

    // ----- lookups ----------------------------------------------------------

    /** `ServiceAccount.objects.filter(service_type=t, uid=uid).first()`. */
    function FindAccount(t: ServiceType, uid: string): (r: Option<Id>)
      reads this
      requires Valid()
      ensures r.Some? ==> r.value in accounts && accounts[r.value].serviceType == t && accounts[r.value].uid == uid
      ensures r.Some? ==> forall k :: k in accounts && k < r.value ==> !(accounts[k].serviceType == t && accounts[k].uid == uid)
      ensures r.None? ==> forall k :: k in accounts ==> !(accounts[k].serviceType == t && accounts[k].uid == uid)
    {
      FirstKey(accounts, (a: ServiceAccount) => a.serviceType == t && a.uid == uid, 0, nextId)
    }

    /** The profile of the first account of type `t` with this uid, if any. */
    function AccountProfile(t: ServiceType, uid: string): (r: Option<Id>)
      reads this
      requires Valid()
      ensures r.Some? ==> r.value in profiles
      ensures r.None? <==> FindAccount(t, uid).None?
    {
      match FindAccount(t, uid)
      case Some(a) => Some(accounts[a].profile)
      case None => None
    }

    /** `Issue.objects.filter(issue_system=s, issue_id=key).first()`. */
    function FindIssue(s: IssueSystem, key: string): (r: Option<Id>)
      reads this
      requires Valid()
      ensures r == FindIssueIn(issues, nextId, s, key)
    {
      FindIssueIn(issues, nextId, s, key)
    }

    /** `GitCommit.objects.filter(hash=h).first()`. */
    function FindCommit(h: string): (r: Option<Id>)
      reads this
      requires Valid()
      ensures r.Some? ==> r.value in commits && commits[r.value].hash == h
      ensures r.None? ==> forall k :: k in commits ==> commits[k].hash != h
    {
      FirstKey(commits, (c: GitCommit) => c.hash == h, 0, nextId)
    }

    /** The worklog holding the non-null `uniq_id` u, if any. */
    function FindUniqId(u: string): (r: Option<Id>)
      reads this
      requires Valid()
      ensures r.Some? ==> r.value in worklogs && worklogs[r.value].uniqId == Some(u)
      ensures r.None? ==> forall k :: k in worklogs ==> worklogs[k].uniqId != Some(u)
    {
      FirstKey(worklogs, (w: Worklog) => w.uniqId == Some(u), 0, nextId)
    }

    // ----- issues -----------------------------------------------------------

    /** `Issue.objects.create(...)`: refused when the `(issue_system, issue_id)` pair is taken. */
    method CreateIssue(i: Issue) returns (r: Result<Id>)
      requires Valid()
      modifies this`issues, this`nextId
      ensures Valid()
      ensures r.Err? <==> old(FindIssue(i.system, i.issueId)).Some?
      ensures r.Err? ==> r.error.IntegrityError? && issues == old(issues)
      ensures r.Ok? ==> r.value !in old(issues) && issues == old(issues)[r.value := i]
      ensures r.Ok? ==> r.value == old(nextId) && nextId == old(nextId) + 1
      ensures r.Err? ==> nextId == old(nextId)
    {
      if FindIssue(i.system, i.issueId).Some? {
        return Err(IntegrityError("issue_system, issue_id"));
      }
      issues := issues[nextId := i];
      r := Ok(nextId);
      nextId := nextId + 1;
    }

    /** `issue.save()` for a row whose key fields are left as they were. */
    method SaveIssue(id: Id, i: Issue)
      requires Valid() && id in issues
      requires i.system == issues[id].system && i.issueId == issues[id].issueId
      modifies this`issues
      ensures Valid()
      ensures issues == old(issues)[id := i]
    {
      issues := issues[id := i];
    }

    /** Deleting an issue keeps the worklogs and commits that pointed at it, unlinked. */
    method DeleteIssue(id: Id)
      requires Valid()
      modifies this`issues, this`worklogs, this`commits
      ensures Valid()
      ensures issues == old(issues) - {id}
      ensures worklogs == WorklogsWithoutIssue(old(worklogs), id)
      ensures commits == CommitsWithoutIssue(old(commits), id)
    {
      IssueDeletionKeepsReferences(id, profiles, accounts, issues, worklogs, projects, commits, nextId);
      issues, worklogs, commits := issues - {id}, WorklogsWithoutIssue(worklogs, id), CommitsWithoutIssue(commits, id);
    }

    // ----- profiles and accounts ----------------------------------------------

    /**
     * Deleting a profile deletes its service accounts and unlinks its
     * worklogs and commits.
     */
    method DeleteProfile(id: Id)
      requires Valid()
      modifies this`profiles, this`accounts, this`worklogs, this`commits
      ensures Valid()
      ensures profiles == old(profiles) - {id}
      ensures accounts == AccountsWithoutProfile(old(accounts), id)
      ensures worklogs == WorklogsWithoutProfile(old(worklogs), id)
      ensures commits == CommitsWithoutProfile(old(commits), id)
    {
      ProfileDeletionKeepsReferences(id, profiles, accounts, issues, worklogs, projects, commits, nextId);
      profiles := profiles - {id};
      accounts := AccountsWithoutProfile(accounts, id);
      worklogs := WorklogsWithoutProfile(worklogs, id);
      commits := CommitsWithoutProfile(commits, id);
    }

    /** `UserProfile.objects.get_or_create(name=name)`: the key and whether it was created. */
    method ProfileGetOrCreate(name: string) returns (r: Result<(Id, bool)>)
      requires Valid()
      modifies this`profiles, this`nextId
      ensures Valid()
      ensures r.Err? <==> old(|ProfilesNamed(name)| > 1)
      ensures r.Err? ==> r.error == MultipleObjectsReturned && profiles == old(profiles)
      ensures r.Ok? && r.value.1 ==> (old(ProfilesNamed(name)) == {} && r.value.0 !in old(profiles)
        && profiles == old(profiles)[r.value.0 := UserProfile(name, true)])
      ensures r.Ok? && !r.value.1 ==> old(ProfilesNamed(name)) == {r.value.0} && profiles == old(profiles)
    {
      var named := ProfilesNamed(name);
      if |named| > 1 {
        return Err(MultipleObjectsReturned);
      }
      if named == {} {
        profiles := profiles[nextId := UserProfile(name, true)];
        r := Ok((nextId, true));
        nextId := nextId + 1;
      } else {
        var k :| k in named;
        OnlyElement(named, k);
        r := Ok((k, false));
      }
    }

    /** `ServiceAccount.objects.get_or_create(service_type=t, uid=uid, user_profile=p)`. */
    method AccountGetOrCreate(t: ServiceType, uid: string, p: Id) returns (r: Result<(Id, bool)>)
      requires Valid() && p in profiles
      modifies this`accounts, this`nextId
      ensures Valid()
      ensures r.Err? <==> old(|AccountsMatching(t, uid, p)| > 1)
      ensures r.Err? ==> r.error == MultipleObjectsReturned && accounts == old(accounts)
      ensures r.Ok? && r.value.1 ==> (old(AccountsMatching(t, uid, p)) == {} && r.value.0 !in old(accounts)
        && accounts == old(accounts)[r.value.0 := ServiceAccount(uid, t, p)])
      ensures r.Ok? && !r.value.1 ==> old(AccountsMatching(t, uid, p)) == {r.value.0} && accounts == old(accounts)
    {
      var matching := AccountsMatching(t, uid, p);
      if |matching| > 1 {
        return Err(MultipleObjectsReturned);
      }
      if matching == {} {
        accounts := accounts[nextId := ServiceAccount(uid, t, p)];
        r := Ok((nextId, true));
        nextId := nextId + 1;
      } else {
        var k :| k in matching;
        OnlyElement(matching, k);
        r := Ok((k, false));
      }
    }

    function ProfilesNamed(name: string): set<Id>
      reads this
    {
      NamedProfiles(profiles, name)
    }

    function AccountsMatching(t: ServiceType, uid: string, p: Id): set<Id>
      reads this
    {
      MatchingAccounts(accounts, t, uid, p)
    }

    // ----- worklogs -----------------------------------------------------------

    /**
     * `Worklog.objects.update_or_create(uniq_id=u, defaults=...)`. A non-null
     * `u` selects the row holding it. Which row a null `u` selects is up to
     * the database: `nullMatch` answers it, and an answer that is not an
     * existing row without `uniq_id` means a new row.
     */
    method UpsertWorklog(u: Option<string>, w: Worklog, nullMatch: map<Id, Worklog> -> Option<Id>)
      returns (id: Id, created: bool)
      requires Valid() && w.uniqId == u && WorklogRefsOk(w)
      modifies this`worklogs, this`nextId
      ensures Valid()
      ensures worklogs == old(worklogs)[id := w]
      ensures created <==> id !in old(worklogs)
      ensures u.Some? ==> (created <==> old(FindUniqId(u.value)).None?)
      ensures !created ==> old(worklogs)[id].uniqId == u && nextId == old(nextId)
      ensures created ==> id == old(nextId) && nextId == old(nextId) + 1
      ensures u.None? && !created ==> nullMatch(old(worklogs)) == Some(id)
    {
      var existing: Option<Id>;
      if u.Some? {
        existing := FindUniqId(u.value);
      } else {
        var m := nullMatch(worklogs);
        existing := if m.Some? && m.value in worklogs && worklogs[m.value].uniqId.None? then m else None;
      }
      if existing.Some? {
        id, created := existing.value, false;
      } else {
        id, created := nextId, true;
        nextId := nextId + 1;
      }
      worklogs := worklogs[id := w];
    }

    /** Deletes the worklogs of `system` dated inside `[lo, hi]`, and no others. */
    method DeleteWindow(system: WorklogSystem, lo: int, hi: int)
      requires Valid()
      modifies this`worklogs
      ensures Valid()
      ensures worklogs == map k | k in old(worklogs) && !InWindow(old(worklogs)[k], system, lo, hi) :: old(worklogs)[k]
    {
      worklogs := map k | k in worklogs && !InWindow(worklogs[k], system, lo, hi) :: worklogs[k];
    }

    /** `worklog.delete()`. */
    method DeleteWorklog(id: Id)
      requires Valid()
      modifies this`worklogs
      ensures Valid()
      ensures worklogs == old(worklogs) - {id}
    {
      worklogs := worklogs - {id};
    }

    // ----- commits ------------------------------------------------------------

    /** `GitCommit(...).save()` of a new commit: refused when its hash is taken. */
    method CreateCommit(c: GitCommit) returns (r: Result<Id>)
      requires Valid() && CommitRefsOk(c)
      modifies this`commits, this`nextId
      ensures Valid()
      ensures r.Err? <==> old(FindCommit(c.hash)).Some?
      ensures r.Err? ==> r.error.IntegrityError? && commits == old(commits)
      ensures r.Ok? ==> r.value !in old(commits) && commits == old(commits)[r.value := c]
      ensures r.Ok? ==> r.value == old(nextId) && nextId == old(nextId) + 1
      ensures r.Err? ==> nextId == old(nextId)
    {
      if FindCommit(c.hash).Some? {
        return Err(IntegrityError("hash"));
      }
      commits := commits[nextId := c];
      r := Ok(nextId);
      nextId := nextId + 1;
    }
  }

  // ----- on-delete rules ------------------------------------------------------

  /** CASCADE on `ServiceAccount.user_profile`: the accounts of `id` go, all others stay. */
  function AccountsWithoutProfile(m: map<Id, ServiceAccount>, id: Id): (r: map<Id, ServiceAccount>)
    ensures forall k :: k in r <==> k in m && m[k].profile != id
    ensures forall k :: k in r ==> r[k] == m[k]
  {
    map k | k in m && m[k].profile != id :: m[k]
  }

  /** SET_NULL on `Worklog.issue`: every worklog stays, those linked to `id` lose the link. */
  function WorklogsWithoutIssue(m: map<Id, Worklog>, id: Id): (r: map<Id, Worklog>)
    ensures r.Keys == m.Keys
    ensures forall k :: k in r ==> r[k].issue != Some(id) && r[k] == m[k].(issue := r[k].issue)
    ensures forall k :: k in r ==> r[k].uniqId == m[k].uniqId
    ensures forall k :: k in r && m[k].issue != Some(id) ==> r[k] == m[k]
  {
    map k | k in m :: if m[k].issue == Some(id) then m[k].(issue := None) else m[k]
  }

  /** SET_NULL on `Worklog.user_profile`. */
  function WorklogsWithoutProfile(m: map<Id, Worklog>, id: Id): (r: map<Id, Worklog>)
    ensures r.Keys == m.Keys
    ensures forall k :: k in r ==> r[k].profile != Some(id) && r[k] == m[k].(profile := r[k].profile)
    ensures forall k :: k in r ==> r[k].uniqId == m[k].uniqId
    ensures forall k :: k in r && m[k].profile != Some(id) ==> r[k] == m[k]
  {
    map k | k in m :: if m[k].profile == Some(id) then m[k].(profile := None) else m[k]
  }

  /** SET_NULL on `GitCommit.issue`. */
  function CommitsWithoutIssue(m: map<Id, GitCommit>, id: Id): (r: map<Id, GitCommit>)
    ensures r.Keys == m.Keys
    ensures forall k :: k in r ==> r[k].issue != Some(id) && r[k] == m[k].(issue := r[k].issue)
    ensures forall k :: k in r && m[k].issue != Some(id) ==> r[k] == m[k]
  {
    map k | k in m :: if m[k].issue == Some(id) then m[k].(issue := None) else m[k]
  }

  /** SET_NULL on `GitCommit.author_profile` and `committer_profile`. */
  function CommitsWithoutProfile(m: map<Id, GitCommit>, id: Id): (r: map<Id, GitCommit>)
    ensures r.Keys == m.Keys
    ensures forall k :: k in r ==>
      r[k].authorProfile != Some(id) && r[k].committerProfile != Some(id)
      && r[k] == m[k].(authorProfile := r[k].authorProfile, committerProfile := r[k].committerProfile)
    ensures forall k :: k in r && m[k].authorProfile != Some(id) ==> r[k].authorProfile == m[k].authorProfile
    ensures forall k :: k in r && m[k].committerProfile != Some(id) ==> r[k].committerProfile == m[k].committerProfile
    ensures forall k :: k in r ==> r[k].project == m[k].project && r[k].issue == m[k].issue && r[k].hash == m[k].hash
  {
    map k | k in m ::
      m[k].(authorProfile := if m[k].authorProfile == Some(id) then None else m[k].authorProfile,
            committerProfile := if m[k].committerProfile == Some(id) then None else m[k].committerProfile)
  }

  /** After the on-delete rules run, no row refers to the deleted profile. */
  lemma ProfileDeletionKeepsReferences(id: Id, profiles: map<Id, UserProfile>, accounts: map<Id, ServiceAccount>,
    issues: map<Id, Issue>, worklogs: map<Id, Worklog>, projects: map<Id, GitProject>, commits: map<Id, GitCommit>,
    nextId: nat)
    requires TablesOk(profiles, accounts, issues, worklogs, projects, commits, nextId)
    ensures TablesOk(profiles - {id}, AccountsWithoutProfile(accounts, id), issues, WorklogsWithoutProfile(worklogs, id),
                     projects, CommitsWithoutProfile(commits, id), nextId)
  {
    WorklogsWithoutProfileRefs(id, profiles, issues, worklogs);
    CommitsWithoutProfileRefs(id, profiles, issues, projects, commits);
  }

  lemma WorklogsWithoutProfileRefs(id: Id, profiles: map<Id, UserProfile>, issues: map<Id, Issue>,
                                   worklogs: map<Id, Worklog>)
    requires WorklogRefs(worklogs, profiles, issues)
    ensures WorklogRefs(WorklogsWithoutProfile(worklogs, id), profiles - {id}, issues)
  {
    var w := WorklogsWithoutProfile(worklogs, id);
    forall k | k in w ensures WorklogRefOk(w[k], profiles - {id}, issues) {
      assert WorklogRefOk(worklogs[k], profiles, issues);
    }
  }

  lemma CommitsWithoutProfileRefs(id: Id, profiles: map<Id, UserProfile>, issues: map<Id, Issue>,
                                  projects: map<Id, GitProject>, commits: map<Id, GitCommit>)
    requires CommitRefs(commits, projects, issues, profiles)
    ensures CommitRefs(CommitsWithoutProfile(commits, id), projects, issues, profiles - {id})
  {
    var c := CommitsWithoutProfile(commits, id);
    forall k | k in c ensures CommitRefOk(c[k], projects, issues, profiles - {id}) {
      assert CommitRefOk(commits[k], projects, issues, profiles);
    }
  }

  /** After the on-delete rules run, no row refers to the deleted issue. */
  lemma IssueDeletionKeepsReferences(id: Id, profiles: map<Id, UserProfile>, accounts: map<Id, ServiceAccount>,
    issues: map<Id, Issue>, worklogs: map<Id, Worklog>, projects: map<Id, GitProject>, commits: map<Id, GitCommit>,
    nextId: nat)
    requires TablesOk(profiles, accounts, issues, worklogs, projects, commits, nextId)
    ensures TablesOk(profiles, accounts, issues - {id}, WorklogsWithoutIssue(worklogs, id),
                     projects, CommitsWithoutIssue(commits, id), nextId)
  {
    WorklogsWithoutIssueRefs(id, profiles, issues, worklogs);
    CommitsWithoutIssueRefs(id, profiles, issues, projects, commits);
  }

  lemma WorklogsWithoutIssueRefs(id: Id, profiles: map<Id, UserProfile>, issues: map<Id, Issue>,
                                 worklogs: map<Id, Worklog>)
    requires WorklogRefs(worklogs, profiles, issues)
    ensures WorklogRefs(WorklogsWithoutIssue(worklogs, id), profiles, issues - {id})
  {
    var w := WorklogsWithoutIssue(worklogs, id);
    forall k | k in w ensures WorklogRefOk(w[k], profiles, issues - {id}) {
      assert WorklogRefOk(worklogs[k], profiles, issues);
    }
  }

  lemma CommitsWithoutIssueRefs(id: Id, profiles: map<Id, UserProfile>, issues: map<Id, Issue>,
                                projects: map<Id, GitProject>, commits: map<Id, GitCommit>)
    requires CommitRefs(commits, projects, issues, profiles)
    ensures CommitRefs(CommitsWithoutIssue(commits, id), projects, issues - {id}, profiles)
  {
    var c := CommitsWithoutIssue(commits, id);
    forall k | k in c ensures CommitRefOk(c[k], projects, issues - {id}, profiles) {
      assert CommitRefOk(commits[k], projects, issues, profiles);
    }
  }

  lemma OnlyElement<T>(s: set<T>, x: T)
    requires x in s && |s| <= 1
    ensures s == {x}
  {
    assert |s - {x}| == |s| - 1;
    assert s - {x} == {};
  }
}
