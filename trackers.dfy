/**
 * Worklog ingestion: finding ticket keys in free text and resolving them to
 * stored issues, the per-source normalisers that turn a fetched report into
 * rows, and the reconciliation of those rows with the stored worklogs.
 */
module Trackers {
  import opened Wrappers
  import opened Text
  import opened Dates
  import opened Patterns
  import opened Models
  import opened JiraUtil

  // ----- ticket keys ----------------------------------------------------------

  /** `'|'.join('({}-\d+)'.format(k) for k in keys)`, searched case-insensitively. */
  function IssuePattern(keys: seq<string>): Pattern {
    Plain(seq(|keys|, k requires 0 <= k < |keys| => Numbered(keys[k])), true)
  }

  /** `IssueLoader.parse_issue`: the leftmost ticket key in the text, upper-cased. */
  function ParseIssue(keys: seq<string>, description: string): (r: Option<(IssueSystem, string)>)
    ensures r.Some? ==> r.value.0 == JiraIssues
  {
    KeyFound(description, Search(IssuePattern(keys), description, 0))
  }

  /** The text of a match, upper-cased, as a Jira ticket key; nothing without a match. */
  function KeyFound(description: string, found: Option<(nat, nat)>): (r: Option<(IssueSystem, string)>)
    requires found.Some? ==> found.value.0 + found.value.1 <= |description|
    ensures r.Some? ==> r.value.0 == JiraIssues
  {
    match found
    case None => None
    case Some((j, n)) => Some((JiraIssues, Upper(description[j..j + n])))
  }

  /** A ticket key for project `key`: the key, a dash and at least one digit. */
  predicate IsTicketOf(t: string, key: string) {
    |t| > |key| + 1 && EqualIgnoringCase(t[..|key|], key) && t[|key|] == '-' && AllDigits(t[|key| + 1..])
  }

  /** `parse_issue` finds nothing exactly when no position starts a ticket key. */
  lemma ParseIssueIsLeftmost(keys: seq<string>, description: string)
    ensures ParseIssue(keys, description).None? <==>
      forall j :: 0 <= j <= |description| ==> MatchAt(IssuePattern(keys), description, j).None?
  {
    var p := IssuePattern(keys);
    match Search(p, description, 0)
    case None => SearchNothing(p, description, 0);
    case Some((j, n)) => ParseIssueFound(keys, description, j, n);
  }

  /**
   * When the search stops at `j` with `n` characters, a ticket key starts
   * there and none earlier, and `parse_issue` returns it upper-cased.
   */
  lemma ParseIssueFound(keys: seq<string>, description: string, j: nat, n: nat)
    requires Search(IssuePattern(keys), description, 0) == Some((j, n))
    ensures j + n <= |description| && MatchAt(IssuePattern(keys), description, j) == Some(n)
    ensures forall i :: 0 <= i < j ==> MatchAt(IssuePattern(keys), description, i).None?
    ensures ParseIssue(keys, description) == Some((JiraIssues, Upper(description[j..j + n])))
  {
    SearchAt(IssuePattern(keys), description, 0, j, n);
    KeyFoundAt(description, j, n);
  }

  lemma KeyFoundAt(description: string, j: nat, n: nat)
    requires j + n <= |description|
    ensures KeyFound(description, Some((j, n))) == Some((JiraIssues, Upper(description[j..j + n])))
  {
  }

  /** A match of `prefix-\d+` is a ticket key of that prefix. */
  lemma AltMatchIsTicket(prefix: string, s: string, i: nat)
    requires i <= |s| && AltMatch(Numbered(prefix), s, i, true).Some?
    ensures IsTicketOf(s[i..i + AltMatch(Numbered(prefix), s, i, true).value], prefix)
  {
    var j := i + |prefix|;
    var d := DigitRun(s, j + 1);
    var t := s[i..j + 1 + d];
    assert t[..|prefix|] == s[i..j];
    assert t[|prefix| + 1..] == s[j + 1..j + 1 + d];
  }

  /** The first numbered alternative that matches is a ticket key of its prefix: the one at `k`. */
  lemma {:induction false} FirstAltIsTicket(alts: seq<Alt>, s: string, i: nat) returns (k: nat)
    requires i <= |s| && forall a :: a in alts ==> a.Numbered?
    requires FirstAlt(alts, s, i, true).Some?
    ensures k < |alts| && IsTicketOf(s[i..i + FirstAlt(alts, s, i, true).value], alts[k].prefix)
  {
    assert alts[0] in alts;
    if AltMatch(alts[0], s, i, true).Some? {
      AltMatchIsTicket(alts[0].prefix, s, i);
      k := 0;
    } else {
      assert forall a :: a in alts[1..] ==> a in alts;
      var k' := FirstAltIsTicket(alts[1..], s, i);
      k := k' + 1;
    }
  }

  /** With at least one project key, what `parse_issue` finds is a ticket key of a configured project. */
  lemma ParseIssueFindsTicket(keys: seq<string>, description: string)
    requires keys != [] && ParseIssue(keys, description).Some?
    ensures var (j, n) := Search(IssuePattern(keys), description, 0).value;
      ParseIssue(keys, description).value.1 == Upper(description[j..j + n])
      && exists k :: 0 <= k < |keys| && IsTicketOf(description[j..j + n], keys[k])
  {
    var p := IssuePattern(keys);
    IssuePatternShape(keys);
    SearchIsLeftmost(p, description, 0);
    var (j, n) := Search(p, description, 0).value;
    assert MatchAt(p, description, j) == FirstAlt(p.alts, description, j, true);
    var k := FirstAltIsTicket(p.alts, description, j);
  }

  lemma IssuePatternShape(keys: seq<string>)
    requires keys != []
    ensures var p := IssuePattern(keys);
      p.Plain? && p.ignoreCase && Alternatives(p.alts) == p.alts && |p.alts| == |keys|
      && (forall k :: 0 <= k < |keys| ==> p.alts[k] == Numbered(keys[k]))
      && forall a :: a in p.alts ==> a.Numbered?
  {
  }

  /** With no project keys the pattern is empty and matches the empty text at the start. */
  lemma ParseIssueWithoutKeys(description: string)
    ensures ParseIssue([], description) == Some((JiraIssues, ""))
  {
    assert MatchAt(IssuePattern([]), description, 0) == Some(0);
  }

  /** The project keys of the issue loader's tests. */
  const TestKeys: seq<string> := ["BACK", "IOS", "WEB"]

  lemma TestPattern()
    ensures IssuePattern(TestKeys) == Plain([Numbered("BACK"), Numbered("IOS"), Numbered("WEB")], true)
  {
  }

  /** At each position the test pattern tries BACK, IOS and WEB in turn. */
  lemma TestMatchAt(s: string, j: nat)
    requires j <= |s|
    ensures AltMatch(Numbered("BACK"), s, j, true).Some? ==>
      MatchAt(IssuePattern(TestKeys), s, j) == AltMatch(Numbered("BACK"), s, j, true)
    ensures AltMatch(Numbered("BACK"), s, j, true).None? && AltMatch(Numbered("IOS"), s, j, true).Some? ==>
      MatchAt(IssuePattern(TestKeys), s, j) == AltMatch(Numbered("IOS"), s, j, true)
    ensures AltMatch(Numbered("BACK"), s, j, true).None? && AltMatch(Numbered("IOS"), s, j, true).None? ==>
      MatchAt(IssuePattern(TestKeys), s, j) == AltMatch(Numbered("WEB"), s, j, true)
  {
    var alts := [Numbered("BACK"), Numbered("IOS"), Numbered("WEB")];
    TestPattern();
    assert MatchAt(IssuePattern(TestKeys), s, j) == FirstAlt(alts, s, j, true);
    assert alts[1..] == [Numbered("IOS"), Numbered("WEB")];
    assert alts[1..][1..] == [Numbered("WEB")];
    assert alts[1..][1..][1..] == [];
    assert FirstAlt(alts[1..][1..], s, j, true) == AltMatch(Numbered("WEB"), s, j, true);
  }

  /** Upper-casing a text whose letters are known. */
  lemma UpperIs(t: string, u: string)
    requires |t| == |u| && forall i :: 0 <= i < |t| ==> UpperChar(t[i]) == u[i]
    ensures Upper(t) == u
  {
  }

  /** A ticket key at the very start of the text is what `parse_issue` returns. */
  lemma ParseIssueFirstMatch(s: string, n: nat)
    requires n <= |s| && MatchAt(IssuePattern(TestKeys), s, 0) == Some(n)
    ensures ParseIssue(TestKeys, s) == Some((JiraIssues, Upper(s[..n])))
  {
  }

  /** A run of exactly three digits. */
  lemma ThreeDigits(s: string, j: nat)
    requires j + 3 <= |s| && IsDigit(s[j]) && IsDigit(s[j + 1]) && IsDigit(s[j + 2])
    requires j + 3 == |s| || !IsDigit(s[j + 3])
    ensures DigitRun(s, j) == 3
  {
    assert DigitRun(s, j + 3) == 0;
  }

  /** `prefix-ddd` matched case-insensitively. */
  lemma NumberedThree(prefix: string, s: string, i: nat)
    requires i + |prefix| + 4 <= |s| && EqualIgnoringCase(s[i..i + |prefix|], prefix) && s[i + |prefix|] == '-'
    requires DigitRun(s, i + |prefix| + 1) == 3
    ensures AltMatch(Numbered(prefix), s, i, true) == Some(|prefix| + 4)
  {
  }

  /** `prefix-\d+` cannot match where no dash follows the prefix. */
  lemma NumberedNoDash(prefix: string, s: string, i: nat)
    requires i <= |s| && (i + |prefix| < |s| ==> s[i + |prefix|] != '-')
    ensures AltMatch(Numbered(prefix), s, i, true).None?
  {
  }

  /** `prefix-\d+` cannot match where the first letter differs from the prefix's. */
  lemma NumberedFirstDiffers(prefix: string, s: string, i: nat)
    requires i < |s| && prefix != [] && UpperChar(s[i]) != UpperChar(prefix[0])
    ensures AltMatch(Numbered(prefix), s, i, true).None?
  {
    if i + |prefix| < |s| {
      assert s[i..i + |prefix|][0] == s[i];
    }
  }

  /** `back-ddd` in any case, followed by a non-digit, at the start of `s`. */
  lemma BackKeyAtStart(s: string)
    requires |s| == 21 && EqualIgnoringCase(s[0..4], "BACK") && s[4] == '-'
    requires IsDigit(s[5]) && IsDigit(s[6]) && IsDigit(s[7]) && !IsDigit(s[8])
    ensures MatchAt(IssuePattern(TestKeys), s, 0) == Some(8)
  {
    ThreeDigits(s, 5);
    NumberedThree("BACK", s, 0);
    TestMatchAt(s, 0);
  }

  lemma BackUpper(s: string)
    requires s == "BACK-193: hello world" || s == "back-193: hello world"
    ensures Upper(s[..8]) == "BACK-193"
  {
    var t := s[..8];
    assert t == "BACK-193" || t == "back-193";
    UpperIs(t, "BACK-193");
  }

  /** `BACK-193` at the start of a memo is found. */
  lemma ParseIssueUpperKey()
    ensures ParseIssue(TestKeys, "BACK-193: hello world") == Some((JiraIssues, "BACK-193"))
  {
    BackKeyAtStart("BACK-193: hello world");
    BackUpper("BACK-193: hello world");
    ParseIssueFirstMatch("BACK-193: hello world", 8);
  }

  /** `back-193` is found too, upper-cased. */
  lemma ParseIssueLowerKey()
    ensures ParseIssue(TestKeys, "back-193: hello world") == Some((JiraIssues, "BACK-193"))
  {
    BackKeyAtStart("back-193: hello world");
    BackUpper("back-193: hello world");
    ParseIssueFirstMatch("back-193: hello world", 8);
  }

  /** The opening bracket starts no ticket key. */
  lemma IosNotAtBracket(s: string)
    requires s == "[iOS-193] hello world"
    ensures MatchAt(IssuePattern(TestKeys), s, 0).None?
  {
    NumberedFirstDiffers("BACK", s, 0);
    NumberedNoDash("IOS", s, 0);
    NumberedNoDash("WEB", s, 0);
    TestMatchAt(s, 0);
  }

  /** `iOS-193` right after the bracket is a ticket key. */
  lemma IosAfterBracket(s: string)
    requires s == "[iOS-193] hello world"
    ensures MatchAt(IssuePattern(TestKeys), s, 1) == Some(7)
  {
    assert EqualIgnoringCase(s[1..4], "IOS") by {
      assert s[1..4] == "iOS";
    }
    ThreeDigits(s, 5);
    NumberedThree("IOS", s, 1);
    NumberedNoDash("BACK", s, 1);
    TestMatchAt(s, 1);
  }

  /** `[iOS-193]` is found as `IOS-193`. */
  lemma ParseIssueBracketedKey()
    ensures ParseIssue(TestKeys, "[iOS-193] hello world") == Some((JiraIssues, "IOS-193"))
  {
    var s := "[iOS-193] hello world";
    IosNotAtBracket(s);
    IosAfterBracket(s);
    assert Search(IssuePattern(TestKeys), s, 0) == Some((1, 7));
    assert s[1..8] == "iOS-193";
    UpperIs(s[1..8], "IOS-193");
  }

  /** The text after the only dash of `[ABC-193] hello world`. */
  const AfterAbc := "193] hello world"

  /** No character of `t` from `i` on is a dash. */
  function DashFreeFrom(t: string, i: nat): bool
    decreases |t| - i
  {
    i >= |t| || (t[i] != '-' && DashFreeFrom(t, i + 1))
  }

  lemma {:induction false} DashFreeAt(t: string, i: nat)
    requires DashFreeFrom(t, i)
    ensures forall k :: i <= k < |t| ==> t[k] != '-'
    decreases |t| - i
  {
    if i < |t| {
      DashFreeAt(t, i + 1);
    }
  }

  /** No ticket key starts where no dash follows three or four characters later. */
  lemma NoTicketWithoutDash(s: string, j: nat)
    requires j <= |s| && (j + 3 < |s| ==> s[j + 3] != '-') && (j + 4 < |s| ==> s[j + 4] != '-')
    ensures MatchAt(IssuePattern(TestKeys), s, j).None?
  {
    NumberedNoDash("BACK", s, j);
    NumberedNoDash("IOS", s, j);
    NumberedNoDash("WEB", s, j);
    TestMatchAt(s, j);
  }

  /** The bracket and the `A` of `[ABC-193]` start no ticket key. */
  lemma AbcNoMatchAtStart(s: string, j: nat)
    requires |s| > 5 && s[0] == '[' && s[1] == 'A' && s[3] != '-' && s[5] != '-' && j <= 1
    ensures MatchAt(IssuePattern(TestKeys), s, j).None?
  {
    TestMatchAt(s, j);
    if j == 0 {
      NumberedFirstDiffers("BACK", s, 0);
      NumberedNoDash("IOS", s, 0);
      NumberedNoDash("WEB", s, 0);
    } else {
      NumberedNoDash("BACK", s, 1);
      NumberedFirstDiffers("IOS", s, 1);
      NumberedFirstDiffers("WEB", s, 1);
    }
  }

  lemma AbcText()
    ensures "[ABC-" + AfterAbc == "[ABC-193] hello world"
  {
  }

  lemma AfterAbcDashFree()
    ensures forall k :: 0 <= k < |AfterAbc| ==> AfterAbc[k] != '-'
  {
    assert DashFreeFrom(AfterAbc, 0);
    DashFreeAt(AfterAbc, 0);
  }

  /** `[ABC-193]` names no configured project, so nothing is found. */
  lemma ParseIssueUnknownKey()
    ensures ParseIssue(TestKeys, "[ABC-193] hello world").None?
  {
    var s := "[ABC-" + AfterAbc;
    AbcText();
    AfterAbcDashFree();
    assert |AfterAbc| == 16 && AfterAbc[0] == '1';
    forall j | 0 <= j <= |s| ensures MatchAt(IssuePattern(TestKeys), s, j).None? {
      if j <= 1 {
        AbcNoMatchAtStart(s, j);
      } else {
        assert j + 3 < |s| ==> s[j + 3] == AfterAbc[j - 2];
        assert j + 4 < |s| ==> s[j + 4] == AfterAbc[j - 1];
        NoTicketWithoutDash(s, j);
      }
    }
    ParseIssueIsLeftmost(TestKeys, s);
  }

  // ----- issue resolution -------------------------------------------------------

  type IssueCache = map<(IssueSystem, string), Option<Id>>

  /** Every cached issue is a stored issue with the cached key. */
  predicate CacheOk(cache: IssueCache, issues: map<Id, Issue>) {
    forall t :: t in cache && cache[t].Some? ==>
      cache[t].value in issues && issues[cache[t].value].system == t.0 && issues[cache[t].value].issueId == t.1
  }

  /** The outcome of `get_issue`: its result, and the cache and issue table it leaves. */
  datatype Resolution = Resolution(result: Result<Option<Id>>, cache: IssueCache, issues: map<Id, Issue>, nextId: nat)

  /**
   * `IssueLoader.get_issue`: no ticket gives None; a cached issue is returned
   * as is; otherwise the stored issue (refreshed from Jira when `autoupdate`)
   * or a newly created one is cached and returned. A cached None is looked
   * up again. A failed fetch raises and leaves cache and table alone.
   */
  function ResolveIssue(cache: IssueCache, autoupdate: bool, issues: map<Id, Issue>, nextId: nat,
                        jira: JiraOracle, baseUrl: string, keys: seq<string>, description: string): (res: Resolution)
    requires KeysBelow(issues, nextId)
  {
    match ParseIssue(keys, description)
    case None => Resolution(Ok(None), cache, issues, nextId)
    case Some(t) =>
      if t in cache && cache[t].Some? then Resolution(Ok(cache[t]), cache, issues, nextId)
      else match FindIssueIn(issues, nextId, t.0, t.1)
        case Some(id) =>
          if !autoupdate then Resolution(Ok(Some(id)), cache[t := Some(id)], issues, nextId)
          else if t.1 !in jira then Resolution(Err(FetchFailed(t.1)), cache, issues, nextId)
          else Resolution(Ok(Some(id)), cache[t := Some(id)], issues[id := Refreshed(issues[id], jira[t.1])], nextId)
        case None =>
          if t.1 !in jira then Resolution(Err(FetchFailed(t.1)), cache, issues, nextId)
          else if jira[t.1].fields.None? then Resolution(Ok(None), cache[t := None], issues, nextId)
          else Resolution(Ok(Some(nextId)), cache[t := Some(nextId)],
                          issues[nextId := NewJiraIssue(t.1, jira[t.1], baseUrl)], nextId + 1)
  }

  /** Every stored issue is still stored, under the same key. */
  predicate IssuesGrow(before: map<Id, Issue>, after: map<Id, Issue>) {
    forall k :: k in before ==> k in after && after[k].system == before[k].system && after[k].issueId == before[k].issueId
  }

  /** `i` is None, or the stored issue whose key is the ticket found in `memo`. */
  predicate IssueFits(issues: map<Id, Issue>, keys: seq<string>, memo: string, i: Option<Id>) {
    i.Some? ==> (ParseIssue(keys, memo).Some? && i.value in issues
      && issues[i.value].system == ParseIssue(keys, memo).value.0
      && issues[i.value].issueId == ParseIssue(keys, memo).value.1)
  }

  /** Adding an issue whose key is new keeps keys unique and the cache honest. */
  lemma AddIssueKeeps(cache: IssueCache, issues: map<Id, Issue>, id: Id, i: Issue, t: (IssueSystem, string))
    requires IssueKeysUnique(issues) && CacheOk(cache, issues) && id !in issues
    requires i.system == t.0 && i.issueId == t.1
    requires forall k :: k in issues ==> !(issues[k].system == t.0 && issues[k].issueId == t.1)
    ensures IssueKeysUnique(issues[id := i]) && CacheOk(cache[t := Some(id)], issues[id := i])
    ensures IssuesGrow(issues, issues[id := i])
  {
  }

  /** Replacing an issue by one with the same key keeps keys unique and the cache honest. */
  lemma ReplaceIssueKeeps(cache: IssueCache, issues: map<Id, Issue>, id: Id, i: Issue, t: (IssueSystem, string))
    requires IssueKeysUnique(issues) && CacheOk(cache, issues) && id in issues
    requires i.system == issues[id].system == t.0 && i.issueId == issues[id].issueId == t.1
    ensures IssueKeysUnique(issues[id := i]) && CacheOk(cache[t := Some(id)], issues[id := i])
    ensures IssuesGrow(issues, issues[id := i])
  {
  }

  /** What resolving leaves behind: the invariants, growth only, and an answer that fits the memo. */
  ghost predicate ResolutionKeeps(issues: map<Id, Issue>, nextId: nat, keys: seq<string>, description: string,
                                  res: Resolution)
  {
    KeysBelow(res.issues, res.nextId) && IssueKeysUnique(res.issues) && CacheOk(res.cache, res.issues)
    && nextId <= res.nextId
    && IssuesGrow(issues, res.issues)
    && (res.result.Ok? ==> IssueFits(res.issues, keys, description, res.result.value))
  }

  /** The stored issue for the ticket is linked, refreshed or not. */
  lemma StoredResolutionKeeps(cache: IssueCache, issues: map<Id, Issue>, nextId: nat, keys: seq<string>,
                              description: string, t: (IssueSystem, string), id: Id, i: Issue)
    requires KeysBelow(issues, nextId) && IssueKeysUnique(issues) && CacheOk(cache, issues)
    requires ParseIssue(keys, description) == Some(t)
    requires id in issues && issues[id].system == t.0 && issues[id].issueId == t.1
    requires i.system == t.0 && i.issueId == t.1
    ensures ResolutionKeeps(issues, nextId, keys, description,
                            Resolution(Ok(Some(id)), cache[t := Some(id)], issues[id := i], nextId))
  {
    ReplaceIssueKeeps(cache, issues, id, i, t);
  }

  /** A new issue for the ticket is stored under the next id. */
  lemma NewResolutionKeeps(cache: IssueCache, issues: map<Id, Issue>, nextId: nat, keys: seq<string>,
                           description: string, t: (IssueSystem, string), i: Issue)
    requires KeysBelow(issues, nextId) && IssueKeysUnique(issues) && CacheOk(cache, issues)
    requires ParseIssue(keys, description) == Some(t)
    requires forall k :: k in issues ==> !(issues[k].system == t.0 && issues[k].issueId == t.1)
    requires i.system == t.0 && i.issueId == t.1
    ensures ResolutionKeeps(issues, nextId, keys, description,
                            Resolution(Ok(Some(nextId)), cache[t := Some(nextId)], issues[nextId := i], nextId + 1))
  {
    AddIssueKeeps(cache, issues, nextId, i, t);
  }

  /** A ticket Jira has no fields for is remembered as unresolvable. */
  lemma NoneResolutionKeeps(cache: IssueCache, issues: map<Id, Issue>, nextId: nat, keys: seq<string>,
                            description: string, t: (IssueSystem, string))
    requires KeysBelow(issues, nextId) && IssueKeysUnique(issues) && CacheOk(cache, issues)
    ensures ResolutionKeeps(issues, nextId, keys, description, Resolution(Ok(None), cache[t := None], issues, nextId))
  {
  }

  /** Resolution keeps the table's invariants and its cache honest, and only adds or refreshes issues. */
  lemma ResolveKeepsInvariants(cache: IssueCache, autoupdate: bool, issues: map<Id, Issue>, nextId: nat,
                               jira: JiraOracle, baseUrl: string, keys: seq<string>, description: string)
    requires KeysBelow(issues, nextId) && IssueKeysUnique(issues) && CacheOk(cache, issues)
    ensures var res := ResolveIssue(cache, autoupdate, issues, nextId, jira, baseUrl, keys, description);
      KeysBelow(res.issues, res.nextId) && IssueKeysUnique(res.issues) && CacheOk(res.cache, res.issues)
      && nextId <= res.nextId
      && IssuesGrow(issues, res.issues)
      && (res.result.Ok? ==> IssueFits(res.issues, keys, description, res.result.value))
  {
    var res := ResolveIssue(cache, autoupdate, issues, nextId, jira, baseUrl, keys, description);
    assert ResolutionKeeps(issues, nextId, keys, description, res) by {
      var p := ParseIssue(keys, description);
      if p.None? {
        assert res == Resolution(Ok(None), cache, issues, nextId);
      } else {
        var t := p.value;
        if t in cache && cache[t].Some? {
          assert res == Resolution(Ok(cache[t]), cache, issues, nextId);
        } else {
          match FindIssueIn(issues, nextId, t.0, t.1)
          case Some(id) =>
            if !autoupdate {
              assert issues[id := issues[id]] == issues;
              assert res == Resolution(Ok(Some(id)), cache[t := Some(id)], issues[id := issues[id]], nextId);
              StoredResolutionKeeps(cache, issues, nextId, keys, description, t, id, issues[id]);
            } else if t.1 in jira {
              var i := Refreshed(issues[id], jira[t.1]);
              assert res == Resolution(Ok(Some(id)), cache[t := Some(id)], issues[id := i], nextId);
              StoredResolutionKeeps(cache, issues, nextId, keys, description, t, id, i);
            } else {
              assert res == Resolution(Err(FetchFailed(t.1)), cache, issues, nextId);
            }
          case None =>
            if t.1 !in jira {
              assert res == Resolution(Err(FetchFailed(t.1)), cache, issues, nextId);
            } else if jira[t.1].fields.Some? {
              var i := NewJiraIssue(t.1, jira[t.1], baseUrl);
              assert res == Resolution(Ok(Some(nextId)), cache[t := Some(nextId)], issues[nextId := i], nextId + 1);
              NewResolutionKeeps(cache, issues, nextId, keys, description, t, i);
            } else {
              assert res == Resolution(Ok(None), cache[t := None], issues, nextId);
              NoneResolutionKeeps(cache, issues, nextId, keys, description, t);
            }
        }
      }
    }
  }

  /** Without a ticket key nothing is looked up and None is returned. */
  lemma ResolveWithoutTicket(cache: IssueCache, autoupdate: bool, issues: map<Id, Issue>, nextId: nat,
                             jira: JiraOracle, baseUrl: string, keys: seq<string>, description: string)
    requires KeysBelow(issues, nextId)
    requires ParseIssue(keys, description).None?
    ensures ResolveIssue(cache, autoupdate, issues, nextId, jira, baseUrl, keys, description)
      == Resolution(Ok(None), cache, issues, nextId)
  {
  }

  /**
   * A cached issue is returned without touching the store or Jira: the
   * outcome is the same whatever the table and the Jira answers are.
   */
  lemma ResolveCacheHit(cache: IssueCache, autoupdate: bool, issues: map<Id, Issue>, nextId: nat,
                        jira: JiraOracle, issues2: map<Id, Issue>, nextId2: nat, jira2: JiraOracle,
                        baseUrl: string, keys: seq<string>, description: string)
    requires KeysBelow(issues, nextId) && KeysBelow(issues2, nextId2)
    requires ParseIssue(keys, description).Some?
    requires var t := ParseIssue(keys, description).value; t in cache && cache[t].Some?
    ensures var res := ResolveIssue(cache, autoupdate, issues, nextId, jira, baseUrl, keys, description);
      res == Resolution(Ok(cache[ParseIssue(keys, description).value]), cache, issues, nextId)
      && ResolveIssue(cache, autoupdate, issues2, nextId2, jira2, baseUrl, keys, description).result == res.result
  {
  }

  /** A cached None does not short-circuit: it resolves as if nothing were cached. */
  lemma ResolveCachedNoneLooksAgain(cache: IssueCache, autoupdate: bool, issues: map<Id, Issue>, nextId: nat,
                                    jira: JiraOracle, baseUrl: string, keys: seq<string>, description: string)
    requires KeysBelow(issues, nextId)
    requires ParseIssue(keys, description).Some?
    requires var t := ParseIssue(keys, description).value; t in cache && cache[t].None?
    ensures var t := ParseIssue(keys, description).value;
      var res := ResolveIssue(cache, autoupdate, issues, nextId, jira, baseUrl, keys, description);
      var again := ResolveIssue(cache - {t}, autoupdate, issues, nextId, jira, baseUrl, keys, description);
      res.result == again.result && res.issues == again.issues && res.nextId == again.nextId
  {
  }

  /** `get_issue` raises only for the ticket key its text names, when the Jira fetch of that key raised. */
  lemma ResolveErrorIsMissingTicket(cache: IssueCache, autoupdate: bool, issues: map<Id, Issue>, nextId: nat,
                                    jira: JiraOracle, baseUrl: string, keys: seq<string>, description: string)
    requires KeysBelow(issues, nextId)
    requires ResolveIssue(cache, autoupdate, issues, nextId, jira, baseUrl, keys, description).result.Err?
    ensures ParseIssue(keys, description).Some? && ParseIssue(keys, description).value.1 !in jira
    ensures ResolveIssue(cache, autoupdate, issues, nextId, jira, baseUrl, keys, description).result.error
      == FetchFailed(ParseIssue(keys, description).value.1)
  {
  }

  /** A failed fetch changes nothing. */
  lemma ResolveErrorChangesNothing(cache: IssueCache, autoupdate: bool, issues: map<Id, Issue>, nextId: nat,
                                   jira: JiraOracle, baseUrl: string, keys: seq<string>, description: string)
    requires KeysBelow(issues, nextId)
    requires ResolveIssue(cache, autoupdate, issues, nextId, jira, baseUrl, keys, description).result.Err?
    ensures ResolveIssue(cache, autoupdate, issues, nextId, jira, baseUrl, keys, description)
      == Resolution(ResolveIssue(cache, autoupdate, issues, nextId, jira, baseUrl, keys, description).result, cache, issues, nextId)
  {
  }

  /** Without `autoupdate`, stored issues are never changed; only new ones are added. */
  lemma ResolveWithoutAutoupdateKeepsIssues(cache: IssueCache, issues: map<Id, Issue>, nextId: nat,
                                            jira: JiraOracle, baseUrl: string, keys: seq<string>, description: string)
    requires KeysBelow(issues, nextId)
    ensures var res := ResolveIssue(cache, false, issues, nextId, jira, baseUrl, keys, description);
      forall k :: k in issues ==> k in res.issues && res.issues[k] == issues[k]
  {
  }

  /** A stored issue is returned, and with `autoupdate` refreshed from Jira first. */
  lemma ResolveStoredIssue(cache: IssueCache, autoupdate: bool, issues: map<Id, Issue>, nextId: nat,
                           jira: JiraOracle, baseUrl: string, keys: seq<string>, description: string, id: Id)
    requires KeysBelow(issues, nextId) && IssueKeysUnique(issues)
    requires ParseIssue(keys, description).Some?
    requires var t := ParseIssue(keys, description).value;
      !(t in cache && cache[t].Some?) && id in issues && issues[id].system == t.0 && issues[id].issueId == t.1
    ensures var t := ParseIssue(keys, description).value;
      var res := ResolveIssue(cache, autoupdate, issues, nextId, jira, baseUrl, keys, description);
      (autoupdate && t.1 !in jira) || (res.result == Ok(Some(id)) && res.cache == cache[t := Some(id)])
    ensures var t := ParseIssue(keys, description).value;
      var res := ResolveIssue(cache, autoupdate, issues, nextId, jira, baseUrl, keys, description);
      autoupdate && t.1 in jira ==> res.issues == issues[id := Refreshed(issues[id], jira[t.1])]
  {
    var t := ParseIssue(keys, description).value;
    var f := FindIssueIn(issues, nextId, t.0, t.1);
    assert f == Some(id);
  }

  /** A ticket not in the table is created from Jira, or cached as None when Jira has no fields. */
  lemma ResolveMissingIssue(cache: IssueCache, autoupdate: bool, issues: map<Id, Issue>, nextId: nat,
                            jira: JiraOracle, baseUrl: string, keys: seq<string>, description: string)
    requires KeysBelow(issues, nextId)
    requires ParseIssue(keys, description).Some?
    requires var t := ParseIssue(keys, description).value;
      !(t in cache && cache[t].Some?) && t.1 in jira
      && forall k :: k in issues ==> !(issues[k].system == t.0 && issues[k].issueId == t.1)
    ensures var t := ParseIssue(keys, description).value;
      var res := ResolveIssue(cache, autoupdate, issues, nextId, jira, baseUrl, keys, description);
      if jira[t.1].fields.None? then res == Resolution(Ok(None), cache[t := None], issues, nextId)
      else (res.result == Ok(Some(nextId)) && nextId !in issues
        && res.issues == issues[nextId := NewJiraIssue(t.1, jira[t.1], baseUrl)])
  {
  }

  /** `IssueLoader`: a per-run cache from ticket key to the resolved issue. */
  class IssueLoader {
    var issuesDict: IssueCache
    const autoupdate: bool

    constructor (autoupdate: bool)
      ensures issuesDict == map[] && this.autoupdate == autoupdate
    {
      issuesDict := map[];
      this.autoupdate := autoupdate;
    }

    /** `get_issue`, against `ResolveIssue`. */
    method GetIssue(store: Store, jira: JiraOracle, baseUrl: string, keys: seq<string>, description: string)
      returns (r: Result<Option<Id>>)
      requires store.Valid() && CacheOk(issuesDict, store.issues)
      modifies this`issuesDict, store`issues, store`nextId
      ensures store.Valid() && CacheOk(issuesDict, store.issues)
      ensures IssuesGrow(old(store.issues), store.issues) && (r.Ok? ==> IssueFits(store.issues, keys, description, r.value))
      ensures var res := ResolveIssue(old(issuesDict), autoupdate, old(store.issues), old(store.nextId),
                                      jira, baseUrl, keys, description);
        r == res.result && issuesDict == res.cache && store.issues == res.issues && store.nextId == res.nextId
    {
      ResolveKeepsInvariants(issuesDict, autoupdate, store.issues, store.nextId, jira, baseUrl, keys, description);
      var parsed := ParseIssue(keys, description);
      if parsed.None? {
        return Ok(None);
      }
      var t := parsed.value;
      if t in issuesDict && issuesDict[t].Some? {
        return Ok(issuesDict[t]);
      }
      r := LoadTicket(store, jira, baseUrl, keys, description, t);
      if r.Ok? {
        issuesDict := issuesDict[t := r.value];
      }
    }

    /** A ticket missing from the cache: the stored issue (refreshed when autoupdating) or a new one. */
    method LoadTicket(store: Store, jira: JiraOracle, baseUrl: string, keys: seq<string>, description: string,
                      t: (IssueSystem, string)) returns (r: Result<Option<Id>>)
      requires store.Valid() && ParseIssue(keys, description) == Some(t) && !(t in issuesDict && issuesDict[t].Some?)
      modifies store`issues, store`nextId
      ensures store.Valid()
      ensures var res := ResolveIssue(issuesDict, autoupdate, old(store.issues), old(store.nextId),
                                      jira, baseUrl, keys, description);
        r == res.result && store.issues == res.issues && store.nextId == res.nextId
        && res.cache == (if r.Ok? then issuesDict[t := r.value] else issuesDict)
    {
      var found := store.FindIssue(t.0, t.1);
      if found.Some? {
        if autoupdate {
          var updated := UpdateJiraIssue(store, jira, found.value, t.1);
          if updated.Err? {
            return Err(updated.error);
          }
        }
        r := Ok(found);
      } else {
        var created := CreateJiraIssue(store, jira, baseUrl, t.1);
        if created.Err? {
          return Err(created.error);
        }
        r := Ok(created.value);
      }
    }

    /** `get_issue_failsafe`: `get_issue`, with a raised error turned into None. */
    method GetIssueFailsafe(store: Store, jira: JiraOracle, baseUrl: string, keys: seq<string>, memo: string)
      returns (r: Option<Id>)
      requires store.Valid() && CacheOk(issuesDict, store.issues)
      modifies this`issuesDict, store`issues, store`nextId
      ensures store.Valid() && CacheOk(issuesDict, store.issues)
      ensures IssuesGrow(old(store.issues), store.issues) && IssueFits(store.issues, keys, memo, r)
      ensures var res := ResolveIssue(old(issuesDict), autoupdate, old(store.issues), old(store.nextId),
                                      jira, baseUrl, keys, memo);
        r == (if res.result.Ok? then res.result.value else None)
        && issuesDict == res.cache && store.issues == res.issues && store.nextId == res.nextId
    {
      var got := GetIssue(store, jira, baseUrl, keys, memo);
      r := if got.Ok? then got.value else None;
    }
  }

  // ----- normalised rows ------------------------------------------------------

  /**
   * One tuple yielded by `iter_fetched_report`; `fromTime` and `toTime` are
   * `dt_range`, as Unix seconds.
   */
  datatype Row = Row(uniqId: Option<string>, userId: string, userName: string, workDate: int,
                     hours: real, memo: string, fromTime: Option<int>, toTime: Option<int>)

  /**
   * A generator that maps each input through `f` and stops at the first
   * input for which `f` raises.
   */
  function Generate<A, B>(xs: seq<A>, f: A -> Result<B>): (s: Stream<B>)
    ensures |s.items| <= |xs|
    ensures forall k :: 0 <= k < |s.items| ==> f(xs[k]) == Ok(s.items[k])
    ensures s.failure.None? ==> |s.items| == |xs|
    ensures s.failure.Some? ==> |s.items| < |xs| && f(xs[|s.items|]) == Err(s.failure.value)
  {
    if xs == [] then Stream([], None)
    else match f(xs[0])
      case Err(e) => Stream([], Some(e))
      case Ok(b) =>
        var rest := Generate(xs[1..], f);
        Stream([b] + rest.items, rest.failure)
  }

  /** The columns `worked_on, provider_id, provider_name, sum(hours), memo` of an Upwork report row. */
  datatype UpworkRow = UpworkRow(workedOn: string, providerId: string, providerName: string, hours: real, memo: string)

  /** The Upwork answer: its optional `status` and `table.rows`. */
  datatype UpworkResponse = UpworkResponse(status: Option<string>, rows: seq<UpworkRow>)

  /** `UpworkLoader.iter_fetched_report` on one row. */
  function UpworkNormalize(row: UpworkRow): (r: Result<Row>)
    ensures r.Ok? <==> ParseYmd(row.workedOn).Ok?
    ensures r.Ok? ==> r.value.uniqId.None? && r.value.fromTime.None? && r.value.toTime.None?
  {
    match ParseYmd(row.workedOn)
    case Err(e) => Err(e)
    case Ok(d) =>
      Ok(Row(None, row.providerId, row.providerName, d, row.hours,
             if row.memo == "No memo" then "" else row.memo, None, None))
  }

  /**
   * A row dated with any spelling `strptime` reads as that day (`YYYYMMDD`,
   * or a shorter month or day) is logged on that day, with `No memo` read
   * as an empty memo.
   */
  lemma UpworkRowDate(y: nat, m: nat, d: nat, mt: string, dt: string,
                      providerId: string, providerName: string, hours: real, memo: string)
    requires ValidDate(y, m, d)
    requires MonthText(mt) && DecimalValue(mt) == m && DayText(dt) && DayValue(dt) == d
    requires !(mt == "1" && |dt| == 2 && '0' <= dt[0] <= '2' && dt[1] != '0')
    ensures UpworkNormalize(UpworkRow(Digits(y, 4) + mt + dt, providerId, providerName, hours, memo))
      == Ok(Row(None, providerId, providerName, Ordinal(y, m, d), hours,
                if memo == "No memo" then "" else memo, None, None))
  {
    ParseSpelled(y, m, d, mt, dt);
  }

  /**
   * An accepted row's date column spells its work date: four year digits,
   * a `%m` text and a `%d` text. Its memo is empty exactly for `''` and
   * `No memo`.
   */
  lemma UpworkRowAccepted(row: UpworkRow) returns (y: nat, m: nat, d: nat, k: nat)
    requires UpworkNormalize(row).Ok?
    ensures ValidDate(y, m, d) && UpworkNormalize(row).value.workDate == Ordinal(y, m, d)
    ensures 4 < k < |row.workedOn| && row.workedOn[..4] == Digits(y, 4)
    ensures MonthText(row.workedOn[4..k]) && DecimalValue(row.workedOn[4..k]) == m
    ensures DayText(row.workedOn[k..]) && DayValue(row.workedOn[k..]) == d
    ensures UpworkNormalize(row).value.memo == "" <==> row.memo == "" || row.memo == "No memo"
  {
    y, m, d, k := ParseYmdSpells(row.workedOn);
  }

  /** `UpworkLoader.fetch_team_report` after the request: an absent status counts as success. */
  function UpworkFetch(response: UpworkResponse): (r: Result<Option<Report>>)
    ensures r.Ok? <==> response.status.None? || response.status == Some("success")
    ensures r.Ok? ==> r.value == Some(UpworkReport(response.rows))
  {
    if response.status.GetOr("success") == "success" then Ok(Some(UpworkReport(response.rows)))
    else Err(FetchFailed("upwork team report"))
  }

  /** One Screenshot Monitor activity: Unix seconds `from` and `to`, `employmentId` and `note`. */
  datatype SMonActivity = SMonActivity(from: int, to: int, employmentId: string, note: string)

  /** `SMonLoader.iter_fetched_report` on one activity. */
  function SMonNormalize(a: SMonActivity): (r: Row)
    ensures (r.workDate - EpochOrdinal) * 86400 <= a.from < (r.workDate - EpochOrdinal + 1) * 86400
    ensures r.hours * 3600.0 == (a.to - a.from) as real
    ensures r.fromTime == Some(a.from) && r.toTime == Some(a.to)
    ensures r.uniqId.None? && r.userName == ""
  {
    Row(None, a.employmentId, "", UtcDate(a.from), (a.to - a.from) as real / 3600.0, a.note, Some(a.from), Some(a.to))
  }

  /** One Jira worklog: its id, `updated` as Unix seconds, author, time spent, issue id and comment. */
  datatype JiraWorklog = JiraWorklog(id: string, updated: int, accountId: string, displayName: string,
                                     timeSpentSeconds: int, issueId: string, comment: Option<string>)

  /** The issue key, followed by `: comment` when the comment is not empty. */
  function JiraMemo(key: string, comment: Option<string>): (m: string)
    ensures |m| >= |key| && m[..|key|] == key
    ensures m == key <==> comment.None? || comment.value == ""
    ensures m != key ==> |m| >= |key| + 2 && m[|key|..|key| + 2] == ": " && m[|key| + 2..] == comment.value
  {
    if comment.Some? && comment.value != "" then key + ": " + comment.value else key
  }

  /** `JiraLoader.iter_fetched_report` on one worklog; fetching its issue may fail, and the answer may lack `key`. */
  function JiraNormalize(jira: JiraOracle, w: JiraWorklog): (r: Result<Row>)
    ensures w.issueId !in jira ==> r == Err(FetchFailed(w.issueId))
    ensures w.issueId in jira && jira[w.issueId].key.None? ==> r == Err(KeyMissing("key"))
    ensures r.Ok? ==> (w.issueId in jira && jira[w.issueId].key.Some?
      && r.value.memo == JiraMemo(jira[w.issueId].key.value, w.comment)
      && r.value.uniqId == Some(w.id) && r.value.hours * 3600.0 == w.timeSpentSeconds as real
      && (r.value.workDate - EpochOrdinal) * 86400 <= w.updated < (r.value.workDate - EpochOrdinal + 1) * 86400
      && r.value.userId == w.accountId && r.value.userName == w.displayName)
  {
    if w.issueId !in jira then Err(FetchFailed(w.issueId))
    else match jira[w.issueId].key
      case None => Err(KeyMissing("key"))
      case Some(key) =>
        Ok(Row(Some(w.id), w.accountId, w.displayName, UtcDate(w.updated), w.timeSpentSeconds as real / 3600.0,
               JiraMemo(key, w.comment), None, None))
  }

  // ----- loaders ----------------------------------------------------------------

  /** What each source's `fetch_team_report` returns. */
  datatype Report =
    | UpworkReport(rows: seq<UpworkRow>)
    | SMonReport(activities: seq<SMonActivity>)
    | JiraReport(worklogs: seq<JiraWorklog>)

  /** The three `BaseWorklogLoader` subclasses and their class attributes. */
  datatype Loader = UpworkLoader | SMonLoader | JiraLoader {
    function System(): WorklogSystem {
      match this
      case UpworkLoader => UpworkLogs
      case SMonLoader => SMonLogs
      case JiraLoader => JiraLogs
    }

    function Service(): ServiceType {
      match this
      case UpworkLoader => Upwork
      case SMonLoader => SMon
      case JiraLoader => Jira
    }

    /** Upwork and SMon replace the window; Jira reconciles it. */
    predicate DropOld() {
      !JiraLoader?
    }

    /** The report kind its own `fetch_team_report` returns. */
    predicate Fetches(report: Report) {
      match this
      case UpworkLoader => report.UpworkReport?
      case SMonLoader => report.SMonReport?
      case JiraLoader => report.JiraReport?
    }
  }

  /** `iter_fetched_report`: the rows of a report, up to the first one that raises. */
  function Normalize(report: Report, jira: JiraOracle): Stream<Row> {
    match report
    case UpworkReport(rows) => Generate(rows, UpworkNormalize)
    case SMonReport(activities) => Generate(activities, (a: SMonActivity) => Ok(SMonNormalize(a)))
    case JiraReport(worklogs) => Generate(worklogs, (w: JiraWorklog) => JiraNormalize(jira, w))
  }

  /** An SMon report never raises: every activity becomes a row. */
  lemma {:induction false} SMonNormalizeTotal(activities: seq<SMonActivity>, jira: JiraOracle)
    ensures Normalize(SMonReport(activities), jira).failure.None?
    ensures |Normalize(SMonReport(activities), jira).items| == |activities|
    ensures forall k :: 0 <= k < |activities| ==> Normalize(SMonReport(activities), jira).items[k] == SMonNormalize(activities[k])
  {
    var f := (a: SMonActivity) => Ok(SMonNormalize(a));
    assert Normalize(SMonReport(activities), jira) == Generate(activities, f);
  }

  /** A Jira report stops at the first worklog whose issue cannot be fetched or has no key. */
  lemma JiraReportStops(worklogs: seq<JiraWorklog>, jira: JiraOracle)
    ensures var s := Normalize(JiraReport(worklogs), jira);
      s.failure.Some? <==> exists k :: 0 <= k < |worklogs| && (worklogs[k].issueId !in jira || jira[worklogs[k].issueId].key.None?)
  {
    var s := Normalize(JiraReport(worklogs), jira);
    var f := (w: JiraWorklog) => JiraNormalize(jira, w);
    if s.failure.None? {
      forall k | 0 <= k < |worklogs|
        ensures worklogs[k].issueId in jira && jira[worklogs[k].issueId].key.Some?
      {
        assert f(worklogs[k]) == Ok(s.items[k]);
      }
    } else {
      var k := |s.items|;
      assert f(worklogs[k]).Err?;
    }
  }

  // ----- the SMon request ---------------------------------------------------------

  /** One item of the Screenshot Monitor request body. */
  datatype SMonRequest = SMonRequest(employmentId: string, from: int, to: int)

  /** The request items for the SMon accounts with keys below `n`, in key order. */
  function SMonQuery(accounts: map<Id, ServiceAccount>, n: nat, fromTs: int, toTs: int): seq<SMonRequest> {
    if n == 0 then []
    else (SMonQuery(accounts, n - 1, fromTs, toTs)
      + (if n - 1 in accounts && accounts[n - 1].serviceType == SMon
         then [SMonRequest(accounts[n - 1].uid, fromTs, toTs)] else []))
  }

  /** The query is empty exactly when there is no SMon account below `n`. */
  lemma {:induction false} SMonQueryEmpty(accounts: map<Id, ServiceAccount>, n: nat, fromTs: int, toTs: int)
    ensures SMonQuery(accounts, n, fromTs, toTs) == [] <==>
      forall k :: k in accounts && k < n ==> accounts[k].serviceType != SMon
  {
    if n > 0 {
      SMonQueryEmpty(accounts, n - 1, fromTs, toTs);
    }
  }

  /** Each item asks for the whole window for an SMon account's uid, and every SMon account is asked for. */
  lemma {:induction false} SMonQueryItems(accounts: map<Id, ServiceAccount>, n: nat, fromTs: int, toTs: int)
    ensures forall r :: r in SMonQuery(accounts, n, fromTs, toTs) ==>
      r.from == fromTs && r.to == toTs
      && exists k :: k in accounts && k < n && accounts[k].serviceType == SMon && accounts[k].uid == r.employmentId
    ensures forall k :: k in accounts && k < n && accounts[k].serviceType == SMon ==>
      SMonRequest(accounts[k].uid, fromTs, toTs) in SMonQuery(accounts, n, fromTs, toTs)
  {
    if n > 0 {
      SMonQueryItems(accounts, n - 1, fromTs, toTs);
    }
  }

  /**
   * `SMonLoader.fetch_team_report`: the request has one item per SMon
   * account; without any there is nothing to fetch. `midnight(d)` is the
   * timestamp `strftime('%s')` gives for day `d`, and `post` the HTTP call.
   */
  method FetchSMon(store: Store, from: int, to: int, midnight: int -> int,
                   post: seq<SMonRequest> -> Result<seq<SMonActivity>>)
    returns (r: Result<Option<Report>>)
    requires store.Valid()
    ensures var q := SMonQuery(store.accounts, store.nextId, midnight(from), midnight(to + 1));
      r == if q == [] then Ok(None)
           else match post(q) case Ok(acts) => Ok(Some(SMonReport(acts))) case Err(e) => Err(e)
  {
    var fromTs, toTs := midnight(from), midnight(to + 1);
    var data := [];
    var k := 0;
    while k < store.nextId
      invariant 0 <= k <= store.nextId
      invariant data == SMonQuery(store.accounts, k, fromTs, toTs)
    {
      if k in store.accounts && store.accounts[k].serviceType == SMon {
        data := data + [SMonRequest(store.accounts[k].uid, fromTs, toTs)];
      }
      k := k + 1;
    }
    if data == [] {
      return Ok(None);
    }
    var answer := post(data);
    match answer
    case Ok(acts) => r := Ok(Some(SMonReport(acts)));
    case Err(e) => r := Err(e);
  }

  /** Without SMon accounts the SMon fetch yields nothing, so `sync` changes nothing. */
  lemma NoSMonAccountsNoReport(accounts: map<Id, ServiceAccount>, n: nat, fromTs: int, toTs: int)
    requires KeysBelow(accounts, n)
    ensures SMonQuery(accounts, n, fromTs, toTs) == [] <==> forall k :: k in accounts ==> accounts[k].serviceType != SMon
  {
    SMonQueryEmpty(accounts, n, fromTs, toTs);
  }

  // ----- reconciliation --------------------------------------------------------------

  /** The rows `sync_fetched_report` writes: those dated inside `[lo, hi]`, in order. */
  function Kept(rows: seq<Row>, lo: int, hi: int): (r: seq<Row>)
    ensures |r| <= |rows|
    ensures forall k :: 0 <= k < |r| ==> lo <= r[k].workDate <= hi
  {
    if rows == [] then []
    else (Kept(rows[..|rows| - 1], lo, hi)
      + (if lo <= rows[|rows| - 1].workDate <= hi then [rows[|rows| - 1]] else []))
  }

  /** A row is written exactly when it is dated inside the window. */
  lemma {:induction false} KeptExactly(rows: seq<Row>, lo: int, hi: int)
    ensures forall x :: x in Kept(rows, lo, hi) <==> x in rows && lo <= x.workDate <= hi
  {
    if rows != [] {
      var init := rows[..|rows| - 1];
      KeptExactly(init, lo, hi);
      assert rows == init + [rows[|rows| - 1]];
    }
  }

  /** The worklog `update_or_create` leaves for a row. */
  function Written(row: Row, system: WorklogSystem, profile: Option<Id>, issue: Option<Id>): Worklog {
    Worklog(row.uniqId, row.workDate, row.userId, row.userName, row.hours, row.memo, system,
            row.fromTime, row.toTime, profile, issue)
  }

  predicate AccountOf(a: ServiceAccount, t: ServiceType, uid: string) {
    a.serviceType == t && a.uid == uid
  }

  /** `p` is the profile of the first account of type `t` with this uid, or None when there is none. */
  ghost predicate ProfileFits(accounts: map<Id, ServiceAccount>, t: ServiceType, uid: string, p: Option<Id>) {
    match p
    case None => forall k :: k in accounts ==> !AccountOf(accounts[k], t, uid)
    case Some(q) =>
      exists a :: a in accounts && AccountOf(accounts[a], t, uid) && accounts[a].profile == q
        && forall k :: k in accounts && k < a ==> !AccountOf(accounts[k], t, uid)
  }

  lemma AccountProfileFits(store: Store, t: ServiceType, uid: string)
    requires store.Valid()
    ensures ProfileFits(store.accounts, t, uid, store.AccountProfile(t, uid))
  {
    var f := store.FindAccount(t, uid);
    if f.Some? {
      assert AccountOf(store.accounts[f.value], t, uid);
    }
  }

  /** A stored worklog written from `row` by `loader`, with the row's profile and issue. */
  ghost predicate Carries(w: Worklog, row: Row, loader: Loader, keys: seq<string>,
                          accounts: map<Id, ServiceAccount>, issues: map<Id, Issue>) {
    w == Written(row, loader.System(), w.profile, w.issue)
    && ProfileFits(accounts, loader.Service(), row.userId, w.profile)
    && IssueFits(issues, keys, row.memo, w.issue)
  }

  /** No later entry of `batch` repeats the one at `j`. */
  predicate LastIn(batch: seq<Id>, j: int)
    requires 0 <= j < |batch|
  {
    forall m :: j < m < |batch| ==> batch[m] != batch[j]
  }

  /**
   * Deletes the worklogs of `system` dated inside `[lo, hi]` whose key is not
   * in `keep`, one at a time.
   */
  method PruneWindow(store: Store, system: WorklogSystem, lo: int, hi: int, keep: set<Id>)
    requires store.Valid()
    modifies store`worklogs
    ensures store.Valid()
    ensures forall k :: k in store.worklogs <==>
      k in old(store.worklogs) && !(InWindow(old(store.worklogs)[k], system, lo, hi) && k !in keep)
    ensures forall k :: k in store.worklogs ==> store.worklogs[k] == old(store.worklogs)[k]
  {
    var doomed := set k | k in store.worklogs && InWindow(store.worklogs[k], system, lo, hi) && k !in keep;
    var todo := doomed;
    while todo != {}
      invariant todo <= doomed
      invariant store.Valid()
      invariant forall k :: k in store.worklogs <==> k in old(store.worklogs) && (k !in doomed || k in todo)
      invariant forall k :: k in store.worklogs ==> store.worklogs[k] == old(store.worklogs)[k]
      decreases todo
    {
      var k :| k in todo;
      store.DeleteWorklog(k);
      todo := todo - {k};
    }
  }

  /** The profile of the row's account and the issue of its memo, resolved whether or not the row is written. */
  method LookupRow(store: Store, issueLoader: IssueLoader, loader: Loader, row: Row,
                   jira: JiraOracle, baseUrl: string, keys: seq<string>)
    returns (profile: Option<Id>, issue: Option<Id>)
    requires store.Valid() && CacheOk(issueLoader.issuesDict, store.issues) && issueLoader.autoupdate
    modifies store`issues, store`nextId, issueLoader`issuesDict
    ensures store.Valid() && CacheOk(issueLoader.issuesDict, store.issues)
    ensures IssuesGrow(old(store.issues), store.issues) && old(store.nextId) <= store.nextId
    ensures ProfileFits(store.accounts, loader.Service(), row.userId, profile)
    ensures IssueFits(store.issues, keys, row.memo, issue)
    ensures profile.Some? ==> profile.value in store.profiles
    ensures var res := ResolveIssue(old(issueLoader.issuesDict), true, old(store.issues), old(store.nextId),
                                    jira, baseUrl, keys, row.memo);
      issue == (if res.result.Ok? then res.result.value else None)
      && issueLoader.issuesDict == res.cache && store.issues == res.issues && store.nextId == res.nextId
  {
    profile := store.AccountProfile(loader.Service(), row.userId);
    AccountProfileFits(store, loader.Service(), row.userId);
    issue := issueLoader.GetIssueFailsafe(store, jira, baseUrl, keys, row.memo);
    ResolveKeepsInvariants(old(issueLoader.issuesDict), true, old(store.issues), old(store.nextId),
                           jira, baseUrl, keys, row.memo);
  }

  /** One iteration of the loop of `sync_fetched_report`, on `row`. */
  method WriteRow(store: Store, issueLoader: IssueLoader, loader: Loader, from: int, to: int, row: Row,
                  jira: JiraOracle, baseUrl: string, keys: seq<string>, nullMatch: map<Id, Worklog> -> Option<Id>,
                  ghost w1: map<Id, Worklog>, ghost n0: nat, written: seq<Id>, ghost kept: seq<Row>)
    returns (written': seq<Id>)
    requires store.Valid() && CacheOk(issueLoader.issuesDict, store.issues) && issueLoader.autoupdate
    requires n0 <= store.nextId
    requires Progress(store.worklogs, w1, n0, written, kept, loader, keys, store.accounts, store.issues)
    modifies store`worklogs, store`issues, store`nextId, issueLoader`issuesDict
    ensures store.Valid() && CacheOk(issueLoader.issuesDict, store.issues)
    ensures IssuesGrow(old(store.issues), store.issues) && n0 <= store.nextId
    ensures Progress(store.worklogs, w1, n0, written', if from <= row.workDate <= to then kept + [row] else kept,
                     loader, keys, store.accounts, store.issues)
    ensures var res := ResolveIssue(old(issueLoader.issuesDict), true, old(store.issues), old(store.nextId),
                                    jira, baseUrl, keys, row.memo);
      issueLoader.issuesDict == res.cache && store.issues == res.issues
      && if from <= row.workDate <= to then
           |written'| == |written| + 1 && written'[..|written|] == written && written'[|written|] in store.worklogs
           && store.worklogs[written'[|written|]].issue == (if res.result.Ok? then res.result.value else None)
         else
           written' == written && store.worklogs == old(store.worklogs)
  {
    var profile, issue := LookupRow(store, issueLoader, loader, row, jira, baseUrl, keys);
    ProgressIssuesGrow(store.worklogs, w1, n0, written, kept, loader, keys, store.accounts, old(store.issues), store.issues);
    if from <= row.workDate <= to {
      written' := UpsertRow(store, loader, row, profile, issue, keys, nullMatch, w1, n0, written, kept);
    } else {
      written' := written;
    }
  }

  /** The `update_or_create` of a row inside the window, with its looked-up profile and issue. */
  method UpsertRow(store: Store, loader: Loader, row: Row, profile: Option<Id>, issue: Option<Id>,
                   keys: seq<string>, nullMatch: map<Id, Worklog> -> Option<Id>,
                   ghost w1: map<Id, Worklog>, ghost n0: nat, written: seq<Id>, ghost kept: seq<Row>)
    returns (written': seq<Id>)
    requires store.Valid() && n0 <= store.nextId
    requires Progress(store.worklogs, w1, n0, written, kept, loader, keys, store.accounts, store.issues)
    requires ProfileFits(store.accounts, loader.Service(), row.userId, profile)
    requires IssueFits(store.issues, keys, row.memo, issue)
    requires profile.Some? ==> profile.value in store.profiles
    modifies store`worklogs, store`nextId
    ensures store.Valid() && n0 <= store.nextId
    ensures Progress(store.worklogs, w1, n0, written', kept + [row], loader, keys, store.accounts, store.issues)
    ensures |written'| == |written| + 1 && written'[..|written|] == written && written'[|written|] in store.worklogs
    ensures store.worklogs[written'[|written|]].issue == issue
  {
    var w := Written(row, loader.System(), profile, issue);
    assert Carries(w, row, loader, keys, store.accounts, store.issues);
    ghost var before := store.worklogs;
    var id, created := store.UpsertWorklog(row.uniqId, w, nullMatch);
    ProgressStep(before, w1, n0, written, kept, loader, keys, store.accounts, store.issues, id, w, row);
    written' := written + [id];
    assert written'[..|written|] == written;
  }

  /**
   * The loop of `sync_fetched_report`: one fresh `IssueLoader(autoupdate=True)`
   * for the run, and for each row its profile, its issue and, inside the
   * window, its `update_or_create`.
   */
  method WriteRows(store: Store, loader: Loader, from: int, to: int, items: seq<Row>,
                   jira: JiraOracle, baseUrl: string, keys: seq<string>,
                   nullMatch: map<Id, Worklog> -> Option<Id>, ghost w1: map<Id, Worklog>, ghost n0: nat)
    returns (written: seq<Id>)
    requires store.Valid() && store.worklogs == w1 && store.nextId == n0
    modifies store`worklogs, store`issues, store`nextId
    ensures store.Valid()
    ensures IssuesGrow(old(store.issues), store.issues)
    ensures |written| == |Kept(items, from, to)|
    ensures forall j :: 0 <= j < |written| ==> written[j] in store.worklogs && (written[j] in w1 || written[j] >= n0)
    ensures forall j :: 0 <= j < |written| && LastIn(written, j) ==>
      Carries(store.worklogs[written[j]], Kept(items, from, to)[j], loader, keys, store.accounts, store.issues)
    ensures forall k :: k in store.worklogs ==> k in w1 || k in written
    ensures forall k :: k in w1 && k !in written ==> k in store.worklogs && store.worklogs[k] == w1[k]
  {
    var issueLoader := new IssueLoader(true);
    written := [];
    var i := 0;
    while i < |items|
      invariant 0 <= i <= |items|
      invariant store.Valid() && CacheOk(issueLoader.issuesDict, store.issues)
      invariant IssuesGrow(old(store.issues), store.issues)
      invariant n0 <= store.nextId
      invariant Progress(store.worklogs, w1, n0, written, Kept(items[..i], from, to), loader, keys, store.accounts, store.issues)
    {
      KeptStep(items, i, from, to);
      ghost var issues0 := store.issues;
      written := WriteRow(store, issueLoader, loader, from, to, items[i], jira, baseUrl, keys, nullMatch,
                          w1, n0, written, Kept(items[..i], from, to));
      assert IssuesGrow(issues0, store.issues);
      i := i + 1;
    }
    assert items[..i] == items;
  }

  /**
   * `BaseWorklogLoader.sync_fetched_report`. Each row's account profile and
   * issue are looked up, rows dated outside the window are skipped, and the
   * others are written with `update_or_create`; `batch` lists the keys
   * written, in order. `drop_old` sources first delete the window; the
   * others afterwards delete the window's worklogs that were not written.
   * A report that raised stops the sync after its last row, before pruning.
   */
  method SyncFetchedReport(store: Store, loader: Loader, from: int, to: int, rows: Stream<Row>,
                           jira: JiraOracle, baseUrl: string, keys: seq<string>,
                           nullMatch: map<Id, Worklog> -> Option<Id>)
    returns (r: Result<nat>, ghost batch: seq<Id>)
    requires store.Valid()
    modifies store`worklogs, store`issues, store`nextId
    ensures store.Valid()
    ensures store.profiles == old(store.profiles) && store.accounts == old(store.accounts)
    ensures IssuesGrow(old(store.issues), store.issues)
    ensures r.Ok? <==> rows.failure.None?
    ensures r.Ok? ==> r.value == |batch|
    ensures r.Err? ==> r.error == rows.failure.value
    ensures |batch| == |Kept(rows.items, from, to)|
    ensures forall j :: 0 <= j < |batch| ==> batch[j] in store.worklogs
    ensures forall j :: 0 <= j < |batch| && LastIn(batch, j) ==>
      Carries(store.worklogs[batch[j]], Kept(rows.items, from, to)[j], loader, keys, store.accounts, store.issues)
    ensures forall k :: k in store.worklogs ==> k in old(store.worklogs) || k in batch
    ensures forall k :: (k in old(store.worklogs) && k !in batch
      && !(InWindow(old(store.worklogs)[k], loader.System(), from, to) && (loader.DropOld() || r.Ok?))) ==>
      k in store.worklogs && store.worklogs[k] == old(store.worklogs)[k]
    ensures loader.DropOld() || r.Ok? ==>
      forall k :: k in store.worklogs && InWindow(store.worklogs[k], loader.System(), from, to) ==> k in batch
    ensures loader.DropOld() ==>
      forall k :: k in old(store.worklogs) && InWindow(old(store.worklogs)[k], loader.System(), from, to) ==>
        k !in store.worklogs && k !in batch
  {
    ghost var n0 := store.nextId;
    DropOldWindow(store, loader, from, to);
    ghost var w1 := store.worklogs;

    var written := WriteRows(store, loader, from, to, rows.items, jira, baseUrl, keys, nullMatch, w1, n0);
    batch := written;

    if rows.failure.Some? {
      r := Err(rows.failure.value);
      return;
    }
    if !loader.DropOld() {
      var keep := set j | 0 <= j < |written| :: written[j];
      PruneWindow(store, loader.System(), from, to, keep);
    }
    r := Ok(|written|);
  }

  /** The `drop_old` step of `sync_fetched_report`: a source that drops old rows first empties the window. */
  method DropOldWindow(store: Store, loader: Loader, from: int, to: int)
    requires store.Valid()
    modifies store`worklogs
    ensures store.Valid()
    ensures forall k :: k in store.worklogs ==> k in old(store.worklogs) && store.worklogs[k] == old(store.worklogs)[k]
    ensures forall k :: k in store.worklogs ==> k < store.nextId
    ensures forall k :: k in old(store.worklogs) && !(loader.DropOld() && InWindow(old(store.worklogs)[k], loader.System(), from, to)) ==>
      k in store.worklogs
    ensures loader.DropOld() ==> forall k :: k in store.worklogs ==> !InWindow(store.worklogs[k], loader.System(), from, to)
  {
    if loader.DropOld() {
      store.DeleteWindow(loader.System(), from, to);
    }
  }

  /**
   * `BaseWorklogLoader.sync`: `fetched` is what `fetch_team_report` returned
   * or raised. Nothing fetched means nothing changes; otherwise the report's
   * rows are reconciled and the number written is returned.
   */
  method Sync(store: Store, loader: Loader, from: int, to: int, fetched: Result<Option<Report>>,
              jira: JiraOracle, baseUrl: string, keys: seq<string>, nullMatch: map<Id, Worklog> -> Option<Id>)
    returns (r: Result<Option<nat>>)
    requires store.Valid()
    requires fetched.Ok? && fetched.value.Some? ==> loader.Fetches(fetched.value.value)
    modifies store`worklogs, store`issues, store`nextId
    ensures store.Valid()
    ensures fetched.Err? || fetched == Ok(None) ==>
      r == (if fetched.Err? then Err(fetched.error) else Ok(None))
      && store.worklogs == old(store.worklogs) && store.issues == old(store.issues) && store.nextId == old(store.nextId)
    ensures fetched.Ok? && fetched.value.Some? ==>
      var rows := Normalize(fetched.value.value, jira);
      (r.Ok? <==> rows.failure.None?) && (r.Ok? ==> r.value == Some(|Kept(rows.items, from, to)|))
  {
    match fetched
    case Err(e) => r := Err(e);
    case Ok(None) => r := Ok(None);
    case Ok(Some(report)) =>
      var synced, batch := SyncFetchedReport(store, loader, from, to, Normalize(report, jira), jira, baseUrl, keys, nullMatch);
      r := if synced.Ok? then Ok(Some(synced.value)) else Err(synced.error);
  }

  /**
   * What the loop of `sync_fetched_report` has done so far to the worklogs
   * `ws`, starting from `w1` with free keys from `n0`: `batch` lists the keys
   * written for the rows `kept`, the last write of each key carries its row,
   * and every other worklog is as it was.
   */
  ghost predicate Progress(ws: map<Id, Worklog>, w1: map<Id, Worklog>, n0: nat, batch: seq<Id>, kept: seq<Row>,
                           loader: Loader, keys: seq<string>, accounts: map<Id, ServiceAccount>, issues: map<Id, Issue>) {
    |batch| == |kept|
    && (forall j :: 0 <= j < |batch| ==> batch[j] in ws && (batch[j] in w1 || batch[j] >= n0))
    && (forall j :: 0 <= j < |batch| && LastIn(batch, j) ==> Carries(ws[batch[j]], kept[j], loader, keys, accounts, issues))
    && (forall k :: k in ws ==> k in w1 || k in batch)
    && (forall k :: k in w1 && k !in batch ==> k in ws && ws[k] == w1[k])
  }

  /** The rows kept from one more row: the next row is appended when it is inside the window. */
  lemma KeptStep(rows: seq<Row>, i: nat, lo: int, hi: int)
    requires i < |rows|
    ensures Kept(rows[..i + 1], lo, hi) == if lo <= rows[i].workDate <= hi then Kept(rows[..i], lo, hi) + [rows[i]]
                                           else Kept(rows[..i], lo, hi)
  {
    assert rows[..i + 1][..i] == rows[..i];
  }

  /** Resolving more issues keeps the progress described. */
  lemma ProgressIssuesGrow(ws: map<Id, Worklog>, w1: map<Id, Worklog>, n0: nat, batch: seq<Id>, kept: seq<Row>,
                           loader: Loader, keys: seq<string>, accounts: map<Id, ServiceAccount>,
                           before: map<Id, Issue>, after: map<Id, Issue>)
    requires Progress(ws, w1, n0, batch, kept, loader, keys, accounts, before) && IssuesGrow(before, after)
    ensures Progress(ws, w1, n0, batch, kept, loader, keys, accounts, after)
  {
  }

  /** Writing `w` under `id`, an existing key or a fresh one, and appending `id` to the batch. */
  lemma ProgressStep(before: map<Id, Worklog>, w1: map<Id, Worklog>, n0: nat, batch: seq<Id>, kept: seq<Row>,
                     loader: Loader, keys: seq<string>, accounts: map<Id, ServiceAccount>, issues: map<Id, Issue>,
                     id: Id, w: Worklog, row: Row)
    requires Progress(before, w1, n0, batch, kept, loader, keys, accounts, issues)
    requires id in before || id >= n0
    requires Carries(w, row, loader, keys, accounts, issues)
    ensures Progress(before[id := w], w1, n0, batch + [id], kept + [row], loader, keys, accounts, issues)
  {
    var b := batch + [id];
    assert forall m :: 0 <= m < |batch| ==> b[m] == batch[m];
    forall j | 0 <= j < |b| && LastIn(b, j)
      ensures Carries(before[id := w][b[j]], (kept + [row])[j], loader, keys, accounts, issues)
    {
      if j < |batch| {
        assert b[j] != id by { assert b[|batch|] == id; }
        assert LastIn(batch, j);
      }
    }
  }

  // ----- account creation -----------------------------------------------------------

  /** The row's name has exactly one profile, `p`, with exactly one Upwork account for the row's uid. */
  predicate SettledWith(profiles: map<Id, UserProfile>, accounts: map<Id, ServiceAccount>, row: UpworkRow, p: Id) {
    NamedProfiles(profiles, row.providerName) == {p} && |MatchingAccounts(accounts, Upwork, row.providerId, p)| == 1
  }

  ghost predicate Settled(profiles: map<Id, UserProfile>, accounts: map<Id, ServiceAccount>, row: UpworkRow) {
    exists p :: SettledWith(profiles, accounts, row, p)
  }

  /** Every entry of `before` is still in `after`, unchanged. */
  predicate KeptAll<V(==)>(before: map<Id, V>, after: map<Id, V>) {
    forall k :: k in before ==> k in after && after[k] == before[k]
  }

  /** An Upwork account for the row's uid, whose profile carries the row's name. */
  predicate AccountFor(profiles: map<Id, UserProfile>, a: ServiceAccount, row: UpworkRow) {
    a.uid == row.providerId && a.serviceType == Upwork && a.profile in profiles && profiles[a.profile].name == row.providerName
  }

  /** Each profile added since `before` is the active profile named after one of the first `n` rows. */
  ghost predicate NewProfilesFrom(before: map<Id, UserProfile>, now: map<Id, UserProfile>, rows: seq<UpworkRow>, n: nat) {
    forall k :: k in now && k !in before ==>
      exists j :: 0 <= j < n && j < |rows| && now[k] == UserProfile(rows[j].providerName, true)
  }

  /** Each account added since `before` is an account for one of the first `n` rows. */
  ghost predicate NewAccountsFrom(before: map<Id, ServiceAccount>, profiles: map<Id, UserProfile>,
                                  now: map<Id, ServiceAccount>, rows: seq<UpworkRow>, n: nat) {
    forall k :: k in now && k !in before ==>
      exists j :: 0 <= j < n && j < |rows| && AccountFor(profiles, now[k], rows[j])
  }

  /** Settling row `i` keeps what was there and adds only that row's profile and account. */
  lemma NewFromRowsStep(p0: map<Id, UserProfile>, p1: map<Id, UserProfile>, p2: map<Id, UserProfile>,
                        a0: map<Id, ServiceAccount>, a1: map<Id, ServiceAccount>, a2: map<Id, ServiceAccount>,
                        rows: seq<UpworkRow>, i: nat)
    requires i < |rows|
    requires KeptAll(p0, p1) && KeptAll(a0, a1)
    requires NewProfilesFrom(p0, p1, rows, i) && NewAccountsFrom(a0, p1, a1, rows, i)
    requires KeptAll(p1, p2) && KeptAll(a1, a2)
    requires forall k :: k in p2 && k !in p1 ==> p2[k] == UserProfile(rows[i].providerName, true)
    requires forall k :: k in a2 && k !in a1 ==> AccountFor(p2, a2[k], rows[i])
    ensures KeptAll(p0, p2) && KeptAll(a0, a2)
    ensures NewProfilesFrom(p0, p2, rows, i + 1) && NewAccountsFrom(a0, p2, a2, rows, i + 1)
  {
    forall k | k in p2 && k !in p0
      ensures exists j :: 0 <= j < i + 1 && j < |rows| && p2[k] == UserProfile(rows[j].providerName, true)
    {
      if k in p1 {
        var j :| 0 <= j < i && j < |rows| && p1[k] == UserProfile(rows[j].providerName, true);
        assert p2[k] == UserProfile(rows[j].providerName, true);
      } else {
        assert p2[k] == UserProfile(rows[i].providerName, true);
      }
    }
    forall k | k in a2 && k !in a0
      ensures exists j :: 0 <= j < i + 1 && j < |rows| && AccountFor(p2, a2[k], rows[j])
    {
      if k in a1 {
        var j :| 0 <= j < i && j < |rows| && AccountFor(p1, a1[k], rows[j]);
        assert AccountFor(p2, a2[k], rows[j]);
      } else {
        assert AccountFor(p2, a2[k], rows[i]);
      }
    }
  }

  /** Adding a profile under a name nobody had leaves settled rows settled. */
  lemma SettledAddProfile(profiles: map<Id, UserProfile>, accounts: map<Id, ServiceAccount>, row: UpworkRow,
                          k: Id, prof: UserProfile)
    requires Settled(profiles, accounts, row) && k !in profiles && NamedProfiles(profiles, prof.name) == {}
    ensures Settled(profiles[k := prof], accounts, row)
  {
    var p :| SettledWith(profiles, accounts, row, p);
    assert prof.name != row.providerName by { assert p in NamedProfiles(profiles, row.providerName); }
    assert NamedProfiles(profiles[k := prof], row.providerName) == NamedProfiles(profiles, row.providerName);
    assert SettledWith(profiles[k := prof], accounts, row, p);
  }

  /** Adding an account that matched nothing leaves settled rows settled. */
  lemma SettledAddAccount(profiles: map<Id, UserProfile>, accounts: map<Id, ServiceAccount>, row: UpworkRow,
                          k: Id, acc: ServiceAccount)
    requires Settled(profiles, accounts, row) && k !in accounts
    requires MatchingAccounts(accounts, acc.serviceType, acc.uid, acc.profile) == {}
    ensures Settled(profiles, accounts[k := acc], row)
  {
    var p :| SettledWith(profiles, accounts, row, p);
    var m := MatchingAccounts(accounts, Upwork, row.providerId, p);
    assert acc != ServiceAccount(row.providerId, Upwork, p) by {
      assert |m| == 1;
      var x :| x in m;
    }
    assert MatchingAccounts(accounts[k := acc], Upwork, row.providerId, p) == m;
    assert SettledWith(profiles, accounts[k := acc], row, p);
  }

  /**
   * One row of `sync_fetched_report`: the profile, then the account, each
   * found or created; rows settled before stay settled, and a row already
   * settled changes nothing.
   */
  method SettleRow(store: Store, rows: seq<UpworkRow>, i: nat) returns (r: Result<()>)
    requires i < |rows| && store.Valid()
    requires forall j :: 0 <= j < i ==> Settled(store.profiles, store.accounts, rows[j])
    modifies store`profiles, store`accounts, store`nextId
    ensures store.Valid()
    ensures r.Err? ==> r.error == MultipleObjectsReturned
    ensures r.Ok? ==> forall j :: 0 <= j <= i ==> Settled(store.profiles, store.accounts, rows[j])
    ensures old(Settled(store.profiles, store.accounts, rows[i])) ==>
      r.Ok? && store.profiles == old(store.profiles) && store.accounts == old(store.accounts)
    ensures KeptAll(old(store.profiles), store.profiles) && KeptAll(old(store.accounts), store.accounts)
    ensures forall k :: k in store.profiles && k !in old(store.profiles) ==> store.profiles[k] == UserProfile(rows[i].providerName, true)
    ensures forall k :: k in store.accounts && k !in old(store.accounts) ==> AccountFor(store.profiles, store.accounts[k], rows[i])
  {
    var row := rows[i];
    ghost var profiles0, accounts0 := store.profiles, store.accounts;
    var got := store.ProfileGetOrCreate(row.providerName);
    if got.Err? {
      return Err(got.error);
    }
    var (p, pCreated) := got.value;
    if pCreated {
      forall j | 0 <= j < i ensures Settled(store.profiles, store.accounts, rows[j]) {
        SettledAddProfile(profiles0, accounts0, rows[j], p, UserProfile(row.providerName, true));
      }
    }
    ghost var accounts1 := store.accounts;
    var acc := store.AccountGetOrCreate(Upwork, row.providerId, p);
    if acc.Err? {
      return Err(acc.error);
    }
    var (a, aCreated) := acc.value;
    if aCreated {
      forall j | 0 <= j < i ensures Settled(store.profiles, store.accounts, rows[j]) {
        SettledAddAccount(store.profiles, accounts1, rows[j], a, ServiceAccount(row.providerId, Upwork, p));
      }
    }
    assert NamedProfiles(store.profiles, row.providerName) == {p};
    assert MatchingAccounts(store.accounts, Upwork, row.providerId, p) == {a};
    assert SettledWith(store.profiles, store.accounts, row, p);
    r := Ok(());
  }

  /**
   * `AccountCreator.sync_fetched_report`: `get_or_create` of a profile by
   * name, then of an Upwork account for the row's uid and that profile. A
   * second run over the same rows finds everything and creates nothing.
   */
  method CreateAccounts(store: Store, rows: seq<UpworkRow>) returns (r: Result<()>)
    requires store.Valid()
    modifies store`profiles, store`accounts, store`nextId
    ensures store.Valid()
    ensures store.worklogs == old(store.worklogs) && store.issues == old(store.issues)
    ensures r.Err? ==> r.error == MultipleObjectsReturned
    ensures r.Ok? ==> forall i :: 0 <= i < |rows| ==> Settled(store.profiles, store.accounts, rows[i])
    ensures (forall i :: 0 <= i < |rows| ==> old(Settled(store.profiles, store.accounts, rows[i]))) ==>
      r.Ok? && store.profiles == old(store.profiles) && store.accounts == old(store.accounts)
    ensures KeptAll(old(store.profiles), store.profiles) && KeptAll(old(store.accounts), store.accounts)
    ensures forall k :: k in store.profiles && k !in old(store.profiles) ==>
      exists i :: 0 <= i < |rows| && store.profiles[k] == UserProfile(rows[i].providerName, true)
    ensures forall k :: k in store.accounts && k !in old(store.accounts) ==>
      exists i :: 0 <= i < |rows| && AccountFor(store.profiles, store.accounts[k], rows[i])
  {
    ghost var allSettled := forall i :: 0 <= i < |rows| ==> Settled(store.profiles, store.accounts, rows[i]);
    var i := 0;
    while i < |rows|
      invariant 0 <= i <= |rows|
      invariant store.Valid()
      invariant store.worklogs == old(store.worklogs) && store.issues == old(store.issues)
      invariant forall j :: 0 <= j < i ==> Settled(store.profiles, store.accounts, rows[j])
      invariant allSettled ==> store.profiles == old(store.profiles) && store.accounts == old(store.accounts)
      invariant allSettled ==> forall j :: 0 <= j < |rows| ==> Settled(store.profiles, store.accounts, rows[j])
      invariant KeptAll(old(store.profiles), store.profiles) && KeptAll(old(store.accounts), store.accounts)
      invariant NewProfilesFrom(old(store.profiles), store.profiles, rows, i)
      invariant NewAccountsFrom(old(store.accounts), store.profiles, store.accounts, rows, i)
    {
      ghost var p1, a1 := store.profiles, store.accounts;
      var one := SettleRow(store, rows, i);
      NewFromRowsStep(old(store.profiles), p1, store.profiles, old(store.accounts), a1, store.accounts, rows, i);
      if one.Err? {
        return one;
      }
      i := i + 1;
    }
    r := Ok(());
  }
}
