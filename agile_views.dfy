/**
 * The standup summary parser: a summary is cut at its bracketed ticket tags
 * (`[IOS-111]`, `[CUSTOM]`), each tag keeps the modifiers that follow it
 * (`[DONE]`, `[REVIEW]`, ...) and a comment, and the report cell shows one
 * line per tag, with the Jira issue's title in place of the comment when the
 * tag names a known or fetchable issue.
 */
module AgileViews {
  import opened Wrappers
  import opened Text
  import opened Patterns
  import opened Models
  import opened JiraUtil
  import opened Trackers

  // ----- SummaryParser.chunks ------------------------------------------------

  /**
   * `chunks(l, n)`: the slices `l[i:i + n]` for `i` in `range(0, len(l), n)`:
   * every chunk but the last holds `n` items, the last one to `n`.
   */
  function Chunks<T>(l: seq<T>, n: nat): (r: seq<seq<T>>)
    requires n > 0
    ensures l == [] <==> r == []
    ensures forall k :: 0 <= k < |r| ==> 0 < |r[k]| <= n
    ensures forall k :: 0 <= k < |r| - 1 ==> |r[k]| == n
    decreases |l|
  {
    if l == [] then []
    else if |l| <= n then [l]
    else [l[..n]] + Chunks(l[n..], n)
  }

  function Flatten<T>(xs: seq<seq<T>>): seq<T> {
    if xs == [] then [] else xs[0] + Flatten(xs[1..])
  }

  /** The chunks, put back together, are the list. */
  lemma {:induction false} ChunksFlatten<T>(l: seq<T>, n: nat)
    requires n > 0
    ensures Flatten(Chunks(l, n)) == l
    decreases |l|
  {
    if |l| > n {
      ChunksFlatten(l[n..], n);
      assert Chunks(l, n)[1..] == Chunks(l[n..], n);
      assert l == l[..n] + l[n..];
    } else if l != [] {
      assert Flatten(Chunks(l, n)) == l + Flatten([]);
    }
  }

  /** A list of even length cuts into its consecutive pairs. */
  lemma {:induction false} ChunksOfEven<T>(l: seq<T>)
    requires |l| % 2 == 0
    ensures |Chunks(l, 2)| == |l| / 2
    ensures forall k :: 0 <= k < |l| / 2 ==> Chunks(l, 2)[k] == [l[2 * k], l[2 * k + 1]]
    decreases |l|
  {
    if |l| == 2 {
      assert Chunks(l, 2) == [l];
    } else if |l| > 2 {
      var rest := Chunks(l[2..], 2);
      ChunksOfEven(l[2..]);
      assert Chunks(l, 2) == [l[..2]] + rest;
      forall k | 1 <= k < |l| / 2
        ensures Chunks(l, 2)[k] == [l[2 * k], l[2 * k + 1]]
      {
        assert Chunks(l, 2)[k] == rest[k - 1];
      }
    }
  }

  // ----- SummaryParser.parse_modifiers ---------------------------------------

  const DefaultModifiers: seq<string> := ["DONE", "REVIEW", "TEST", "IN_PROGRESS", "FIX"]

  /** The value of `re.IGNORECASE`, which the comment removal receives as its `count`. */
  const IgnoreCaseFlag: nat := 2

  function Literals(words: seq<string>): (r: seq<Alt>)
    ensures |r| == |words| && forall k :: 0 <= k < |words| ==> r[k] == Literal(words[k])
  {
    seq(|words|, k requires 0 <= k < |words| => Literal(words[k]))
  }

  /** `(\[(?:DONE|REVIEW|...)\])`. */
  function ModifierPattern(modifiers: seq<string>, ignoreCase: bool): Pattern {
    Bracketed(Literals(modifiers), ignoreCase)
  }

  /**
   * `parse_modifiers`: every bracketed modifier, matched ignoring case; and
   * the text with the first two modifiers of the exact case removed, then
   * with every bracket of non-word characters removed.
   */
  function ParseModifiers(text: string, modifiers: seq<string>): (seq<string>, string) {
    var found := FindAll(ModifierPattern(modifiers, true), text);
    var comment := Sub(ModifierPattern(modifiers, false), text, IgnoreCaseFlag);
    (found, Sub(EmptyBracket, comment, 0))
  }

  /** `t` is `[`, the text of one of `alts`, `]`. */
  predicate IsTag(t: string, alts: seq<Alt>, ignoreCase: bool) {
    |t| >= 2 && t[0] == '[' && t[|t| - 1] == ']'
    && exists a :: a in Alternatives(alts) && AltText(a, t[1..|t| - 1], ignoreCase)
  }

  /** Every text `findall` returns for a bracketed alternation is a tag of it. */
  lemma FindAllTag(alts: seq<Alt>, ignoreCase: bool, s: string, k: nat)
    requires k < |FindAll(Bracketed(alts, ignoreCase), s)|
    ensures IsTag(FindAll(Bracketed(alts, ignoreCase), s)[k], alts, ignoreCase)
  {
    var p := Bracketed(alts, ignoreCase);
    var j := FindAllAt(p, s, k);
    MatchIsTag(alts, ignoreCase, s, j, FindAll(p, s)[k]);
  }

  /** The text of a match of a bracketed alternation is a tag of it. */
  lemma MatchIsTag(alts: seq<Alt>, ignoreCase: bool, s: string, j: nat, t: string)
    requires j + |t| <= |s| && s[j..j + |t|] == t && MatchAt(Bracketed(alts, ignoreCase), s, j) == Some(|t|)
    ensures IsTag(t, alts, ignoreCase)
  {
    var a, n := BracketedText(alts, ignoreCase, s, j);
    SliceOfSlice(s, j, n);
    AltTextSame(Alternatives(alts)[a], Alternatives(alts)[a], s[j + 1..j + 1 + n], t[1..|t| - 1], ignoreCase);
    var all := Alternatives(alts);
    assert all[a] in all;
  }

  lemma FindAllTags(alts: seq<Alt>, ignoreCase: bool, s: string)
    ensures forall k :: 0 <= k < |FindAll(Bracketed(alts, ignoreCase), s)| ==>
      IsTag(FindAll(Bracketed(alts, ignoreCase), s)[k], alts, ignoreCase)
  {
    forall k | 0 <= k < |FindAll(Bracketed(alts, ignoreCase), s)| {
      FindAllTag(alts, ignoreCase, s, k);
    }
  }

  /**
   * The modifiers found are the matches of the case-insensitive pattern, in
   * order, each a bracketed modifier; the comment is the text glued back
   * without its first two exact-case modifiers and then without its empty
   * brackets.
   */
  lemma ParseModifiersSpec(text: string, modifiers: seq<string>)
    ensures var (found, comment) := ParseModifiers(text, modifiers);
      found == Odds(Split(ModifierPattern(modifiers, true), text))
      && (forall k :: 0 <= k < |found| ==> IsTag(found[k], Literals(modifiers), true))
      && var kept := Rejoin(Split(ModifierPattern(modifiers, false), text), IgnoreCaseFlag);
         comment == Rejoin(Split(EmptyBracket, kept), |Split(EmptyBracket, kept)|)
  {
    FindAllIsOdds(ModifierPattern(modifiers, true), text);
    FindAllTags(Literals(modifiers), true, text);
    SubIsRejoin(ModifierPattern(modifiers, false), text, IgnoreCaseFlag);
    var kept := Sub(ModifierPattern(modifiers, false), text, IgnoreCaseFlag);
    SubIsRejoin(EmptyBracket, kept, 0);
  }

  // ----- SummaryParser.parse -------------------------------------------------

  const DefaultCustom: seq<string> := ["CUSTOM"]

  /** One parsed summary entry: `[tag, modifiers, comment.strip()]`. */
  datatype Entry = Entry(tag: string, modifiers: seq<string>, comment: string)

  /** `KEY-\d+` for each project, then each custom tag word. */
  function TagAlts(projects: seq<string>, custom: seq<string>): seq<Alt> {
    seq(|projects|, k requires 0 <= k < |projects| => Numbered(projects[k])) + Literals(custom)
  }

  function TagPattern(projects: seq<string>, custom: seq<string>): Pattern {
    Bracketed(TagAlts(projects, custom), true)
  }

  /** The entry for one `[tag, text]` pair. */
  function EntryOf(tag: string, text: string): Entry {
    var (mods, comment) := ParseModifiers(text, DefaultModifiers);
    Entry(tag, mods, Strip(comment))
  }

  /**
   * `parse`: fails its assertion without project keys; otherwise splits the
   * summary at its tags, drops what precedes the first tag, and pairs each
   * tag with the text up to the next.
   */
  function Parse(source: string, projects: seq<string>, custom: seq<string>): (r: Result<seq<Entry>>)
    ensures r.Err? <==> projects == []
    ensures r.Err? ==> r.error == AssertionFailed("Jira project prefixes not specified")
  {
    if projects == [] then Err(AssertionFailed("Jira project prefixes not specified"))
    else
      var lines := Split(TagPattern(projects, custom), source);
      var pairs := Chunks(lines[1..], 2);
      ChunksOfEven(lines[1..]);
      Ok(seq(|pairs|, k requires 0 <= k < |pairs| => EntryOf(pairs[k][0], pairs[k][1])))
  }

  /**
   * With project keys, there is one entry per tag: its tag is the `k`-th
   * match of the tag pattern, and its modifiers and comment come from the
   * text between that tag and the next (or the end).
   */
  lemma ParseEntries(source: string, projects: seq<string>, custom: seq<string>)
    requires projects != []
    ensures var lines := Split(TagPattern(projects, custom), source);
      var entries := Parse(source, projects, custom).value;
      |lines| == 2 * |entries| + 1
      && forall k :: 0 <= k < |entries| ==> entries[k] == EntryOf(lines[2 * k + 1], lines[2 * k + 2])
  {
    var lines := Split(TagPattern(projects, custom), source);
    ChunksOfEven(lines[1..]);
  }

  /** The tags of the entries are exactly what `findall` finds, and each is a bracketed ticket key or custom word. */
  lemma ParseTags(source: string, projects: seq<string>, custom: seq<string>)
    requires projects != []
    ensures var entries := Parse(source, projects, custom).value;
      var tags := FindAll(TagPattern(projects, custom), source);
      |entries| == |tags|
      && forall k :: 0 <= k < |entries| ==>
        entries[k].tag == tags[k] && IsTag(entries[k].tag, TagAlts(projects, custom), true)
  {
    var p := TagPattern(projects, custom);
    var lines := Split(p, source);
    ParseEntries(source, projects, custom);
    FindAllIsOdds(p, source);
    OddsAt(lines);
    FindAllTags(TagAlts(projects, custom), true, source);
  }

  /** A summary without tags parses to nothing, whatever text it holds. */
  lemma ParseWithoutTags(source: string, projects: seq<string>, custom: seq<string>)
    requires projects != [] && Search(TagPattern(projects, custom), source, 0).None?
    ensures Parse(source, projects, custom) == Ok([])
  {
    ParseEntries(source, projects, custom);
  }

  // ----- RenderReport.reformat_with_jira -------------------------------------

  /** Issues already stored stay as they are. */
  predicate IssuesKept(before: map<Id, Issue>, after: map<Id, Issue>) {
    forall k :: k in before ==> k in after && after[k] == before[k]
  }

  /** The issues the entries' tags resolve to, and the issue table that leaves. */
  datatype Lookups = Lookups(ids: Result<seq<Option<Id>>>, issues: map<Id, Issue>, nextId: nat)

  /**
   * One `IssueLoader().get_issue(tag)` per entry from `from` on, in order,
   * each with an empty cache and without autoupdate; the first failure stops
   * the rest.
   */
  function LookUpTags(entries: seq<Entry>, from: nat, issues: map<Id, Issue>, nextId: nat,
                      jira: JiraOracle, baseUrl: string, keys: seq<string>): (r: Lookups)
    requires from <= |entries| && KeysBelow(issues, nextId) && IssueKeysUnique(issues)
    ensures KeysBelow(r.issues, r.nextId) && IssueKeysUnique(r.issues) && IssuesKept(issues, r.issues)
    ensures r.ids.Ok? ==> (|r.ids.value| == |entries| - from
      && forall k :: from <= k < |entries| ==> IssueFits(r.issues, keys, entries[k].tag, r.ids.value[k - from]))
    decreases |entries| - from
  {
    if from == |entries| then Lookups(Ok([]), issues, nextId)
    else
      var res := ResolveIssue(map[], false, issues, nextId, jira, baseUrl, keys, entries[from].tag);
      ResolveKeepsInvariants(map[], false, issues, nextId, jira, baseUrl, keys, entries[from].tag);
      ResolveWithoutAutoupdateKeepsIssues(map[], issues, nextId, jira, baseUrl, keys, entries[from].tag);
      match res.result
      case Err(e) => Lookups(Err(e), res.issues, res.nextId)
      case Ok(id) =>
        var rest := LookUpTags(entries, from + 1, res.issues, res.nextId, jira, baseUrl, keys);
        match rest.ids
        case Err(e) => Lookups(Err(e), rest.issues, rest.nextId)
        case Ok(ids) => Lookups(Ok([id] + ids), rest.issues, rest.nextId)
  }

  /** `'[DONE REVIEW]'` for modifiers, nothing without. */
  function ModifierText(modifiers: seq<string>): string {
    if modifiers == [] then "" else "[" + Join(modifiers, " ") + "]"
  }

  /** `'{} {} {}'.format(ticket, m, description)`, the description being the issue's title when there is one. */
  function Line(e: Entry, title: Option<string>): string {
    e.tag + " " + ModifierText(e.modifiers) + " " + (if title.Some? then title.value else e.comment)
  }

  function Title(issues: map<Id, Issue>, id: Option<Id>): Option<string> {
    if id.Some? && id.value in issues then Some(issues[id.value].title) else None
  }

  function Lines(entries: seq<Entry>, ids: seq<Option<Id>>, issues: map<Id, Issue>): seq<string>
    requires |ids| == |entries|
  {
    seq(|entries|, k requires 0 <= k < |entries| => Line(entries[k], Title(issues, ids[k])))
  }

  /** The lines joined by `<br />` line breaks; with no lines, the text itself, or `-` for no text. */
  function Formatted(lines: seq<string>, text: string): string {
    var joined := Join(lines, "<br />\n");
    if joined != "" then joined else if text != "" then text else "-"
  }

  /** With entries the cell is their lines joined; without, it is the text (or `-`). */
  lemma FormattedLines(entries: seq<Entry>, ids: seq<Option<Id>>, issues: map<Id, Issue>, text: string)
    requires |ids| == |entries|
    ensures entries != [] ==> Formatted(Lines(entries, ids, issues), text) == Join(Lines(entries, ids, issues), "<br />\n")
    ensures entries == [] ==> Formatted(Lines(entries, ids, issues), text) == (if text != "" then text else "-")
  {
    var lines := Lines(entries, ids, issues);
    if entries != [] {
      assert |lines[0]| > 0;
      assert |Join(lines, "<br />\n")| >= |lines[0]|;
    }
  }

  /** An entry's line shows its tag and its modifiers, then the issue's title or, without an issue, the comment. */
  lemma LineShowsEntry(e: Entry, title: Option<string>)
    ensures var l := Line(e, title); var m := ModifierText(e.modifiers);
      l[..|e.tag| + 1] == e.tag + " "
      && l[|e.tag| + 1..|e.tag| + 1 + |m|] == m
      && l[|e.tag| + 1 + |m|..] == " " + (if title.Some? then title.value else e.comment)
  {
  }

  /** The cell text, once every entry's issue (or none) is known; or the lookup failure. */
  function Reformatted(text: string, parsed: seq<Entry>, look: Lookups): Result<string>
    requires look.ids.Ok? ==> |look.ids.value| == |parsed|
  {
    match look.ids
    case Err(e) => Err(e)
    case Ok(ids) => Ok(Formatted(Lines(parsed, ids, look.issues), text))
  }

  /** The lookups so far, in front of the lookups still to come. */
  function Prepend(ids: seq<Option<Id>>, l: Lookups): Lookups {
    match l.ids
    case Err(_) => l
    case Ok(rest) => l.(ids := Ok(ids + rest))
  }

  /** One step of `LookUpTags`: the next entry's lookup, then the rest. */
  lemma LookUpStep(entries: seq<Entry>, i: nat, ids: seq<Option<Id>>, issues: map<Id, Issue>, nextId: nat,
                   jira: JiraOracle, baseUrl: string, keys: seq<string>)
    requires i < |entries| && KeysBelow(issues, nextId) && IssueKeysUnique(issues)
    ensures var res := ResolveIssue(map[], false, issues, nextId, jira, baseUrl, keys, entries[i].tag);
      var l := LookUpTags(entries, i, issues, nextId, jira, baseUrl, keys);
      (res.result.Err? ==> l == Lookups(Err(res.result.error), res.issues, res.nextId))
      && (res.result.Ok? ==>
            KeysBelow(res.issues, res.nextId) && IssueKeysUnique(res.issues)
            && Prepend(ids, l) == Prepend(ids + [res.result.value],
                                          LookUpTags(entries, i + 1, res.issues, res.nextId, jira, baseUrl, keys)))
  {
    var res := ResolveIssue(map[], false, issues, nextId, jira, baseUrl, keys, entries[i].tag);
    ResolveKeepsInvariants(map[], false, issues, nextId, jira, baseUrl, keys, entries[i].tag);
    if res.result.Ok? {
      var rest := LookUpTags(entries, i + 1, res.issues, res.nextId, jira, baseUrl, keys);
      if rest.ids.Ok? {
        assert ids + ([res.result.value] + rest.ids.value) == (ids + [res.result.value]) + rest.ids.value;
      }
    }
  }

  /** `IssueLoader().get_issue(tag)`: a new loader, without autoupdate, for one entry. */
  method LookUpTag(store: Store, jira: JiraOracle, baseUrl: string, keys: seq<string>, tag: string)
    returns (got: Result<Option<Id>>)
    requires store.Valid()
    modifies store`issues, store`nextId
    ensures store.Valid() && IssuesKept(old(store.issues), store.issues)
    ensures var res := ResolveIssue(map[], false, old(store.issues), old(store.nextId), jira, baseUrl, keys, tag);
      got == res.result && store.issues == res.issues && store.nextId == res.nextId
    ensures got.Ok? && got.value.Some? ==> got.value.value in store.issues
  {
    ResolveWithoutAutoupdateKeepsIssues(map[], store.issues, store.nextId, jira, baseUrl, keys, tag);
    var loader := new IssueLoader(false);
    got := loader.GetIssue(store, jira, baseUrl, keys, tag);
  }

  /**
   * `reformat_with_jira`: the cell text of a summary. Parsing failures and
   * failed issue lookups propagate; issues created on the way stay stored.
   */
  method ReformatWithJira(store: Store, jira: JiraOracle, baseUrl: string, keys: seq<string>, text: string)
    returns (r: Result<string>)
    requires store.Valid()
    modifies store`issues, store`nextId
    ensures store.Valid()
    ensures Parse(text, keys, DefaultCustom).Err? ==>
      r == Err(Parse(text, keys, DefaultCustom).error)
      && store.issues == old(store.issues) && store.nextId == old(store.nextId)
    ensures Parse(text, keys, DefaultCustom).Ok? ==>
      var parsed := Parse(text, keys, DefaultCustom).value;
      var look := LookUpTags(parsed, 0, old(store.issues), old(store.nextId), jira, baseUrl, keys);
      store.issues == look.issues && store.nextId == look.nextId && r == Reformatted(text, parsed, look)
  {
    var parsed := Parse(text, keys, DefaultCustom);
    if parsed.Err? {
      return Err(parsed.error);
    }
    var lines := RenderLines(store, jira, baseUrl, keys, parsed.value);
    match lines
    case Err(e) => r := Err(e);
    case Ok(ls) => r := Ok(Formatted(ls, text));
  }

  /** The loop of `reformat_with_jira`: one line per entry, looking up each entry's issue as it goes. */
  method RenderLines(store: Store, jira: JiraOracle, baseUrl: string, keys: seq<string>, entries: seq<Entry>)
    returns (r: Result<seq<string>>)
    requires store.Valid()
    modifies store`issues, store`nextId
    ensures store.Valid()
    ensures var look := LookUpTags(entries, 0, old(store.issues), old(store.nextId), jira, baseUrl, keys);
      store.issues == look.issues && store.nextId == look.nextId
      && (look.ids.Err? ==> r == Err(look.ids.error))
      && (look.ids.Ok? ==> r == Ok(Lines(entries, look.ids.value, look.issues)))
  {
    ghost var whole := LookUpTags(entries, 0, store.issues, store.nextId, jira, baseUrl, keys);
    var ids: seq<Option<Id>> := [];
    var lines: seq<string> := [];
    var i := 0;
    PrependNothing(whole);
    while i < |entries|
      invariant 0 <= i <= |entries| && |ids| == i && store.Valid()
      invariant whole == Prepend(ids, LookUpTags(entries, i, store.issues, store.nextId, jira, baseUrl, keys))
      invariant forall k :: 0 <= k < i && ids[k].Some? ==> ids[k].value in store.issues
      invariant lines == Lines(entries[..i], ids, store.issues)
    {
      var got, line := RenderNext(store, jira, baseUrl, keys, entries, i, ids, whole);
      if got.Err? {
        return Err(got.error);
      }
      lines := lines + [line];
      ids := ids + [got.value];
      i := i + 1;
    }
    assert entries[..i] == entries;
    LookUpDone(entries, ids, store.issues, store.nextId, jira, baseUrl, keys);
    r := Ok(lines);
  }

  /** One turn of the loop above: the next entry's issue, looked up, and its line. */
  method RenderNext(store: Store, jira: JiraOracle, baseUrl: string, keys: seq<string>, entries: seq<Entry>,
                    i: nat, ghost ids: seq<Option<Id>>, ghost whole: Lookups)
    returns (got: Result<Option<Id>>, line: string)
    requires i < |entries| && |ids| == i && store.Valid()
    requires whole == Prepend(ids, LookUpTags(entries, i, store.issues, store.nextId, jira, baseUrl, keys))
    requires forall k :: 0 <= k < i && ids[k].Some? ==> ids[k].value in store.issues
    modifies store`issues, store`nextId
    ensures store.Valid()
    ensures got.Err? ==> whole == Lookups(Err(got.error), store.issues, store.nextId)
    ensures got.Ok? ==>
      whole == Prepend(ids + [got.value], LookUpTags(entries, i + 1, store.issues, store.nextId, jira, baseUrl, keys))
      && (forall k :: 0 <= k < i + 1 && (ids + [got.value])[k].Some? ==> (ids + [got.value])[k].value in store.issues)
      && Lines(entries[..i + 1], ids + [got.value], store.issues) == Lines(entries[..i], ids, old(store.issues)) + [line]
  {
    LookUpStep(entries, i, ids, store.issues, store.nextId, jira, baseUrl, keys);
    ghost var before := store.issues;
    got := LookUpTag(store, jira, baseUrl, keys, entries[i].tag);
    if got.Err? {
      line := "";
      return;
    }
    var title := if got.value.Some? then Some(store.issues[got.value.value].title) else None;
    line := Line(entries[i], title);
    LinesStep(entries, i, ids + [got.value], before, store.issues);
  }

  /** Past the last entry nothing more is looked up: what was gathered is the whole answer. */
  lemma LookUpDone(entries: seq<Entry>, ids: seq<Option<Id>>, issues: map<Id, Issue>, nextId: nat,
                   jira: JiraOracle, baseUrl: string, keys: seq<string>)
    requires KeysBelow(issues, nextId) && IssueKeysUnique(issues)
    ensures Prepend(ids, LookUpTags(entries, |entries|, issues, nextId, jira, baseUrl, keys))
      == Lookups(Ok(ids), issues, nextId)
  {
    assert ids + [] == ids;
  }

  lemma PrependNothing(l: Lookups)
    ensures Prepend([], l) == l
  {
    if l.ids.Ok? {
      assert [] + l.ids.value == l.ids.value;
    }
  }

  /** The lines written so far survive an added issue, and the new line is the next entry's. */
  lemma LinesStep(entries: seq<Entry>, i: nat, ids: seq<Option<Id>>, before: map<Id, Issue>, after: map<Id, Issue>)
    requires i < |entries| && |ids| == i + 1 && IssuesKept(before, after)
    requires forall k :: 0 <= k < i && ids[k].Some? ==> ids[k].value in before
    requires ids[i].Some? ==> ids[i].value in after
    ensures Lines(entries[..i + 1], ids, after)
      == Lines(entries[..i], ids[..i], before) + [Line(entries[i], Title(after, ids[i]))]
  {
  }
}

module AgileViewsExamples {
  import opened Wrappers
  import opened Text
  import opened Patterns
  import opened AgileViews

  const Sample: string := "[[DONE] [REVIEW]] text"

  /** Without an opening bracket in `s[i..]`, a bracketed pattern matches nowhere there. */
  lemma {:induction false} NoOpenNoMatch(p: Pattern, s: string, i: nat)
    requires !p.Plain? && i <= |s|
    requires forall k :: i <= k < |s| ==> s[k] != '['
    ensures Search(p, s, i).None?
    decreases |s| - i
  {
    if i < |s| {
      NoOpenNoMatch(p, s, i + 1);
    }
  }

  /** No word starts with the character at `i`, so no word matches there. */
  lemma {:induction false} NoWordAt(words: seq<string>, s: string, i: nat, ic: bool)
    requires i < |s|
    requires forall k :: 0 <= k < |words| ==> words[k] != [] && UpperChar(s[i]) != UpperChar(words[k][0])
    ensures FirstAltBeforeClose(Literals(words), s, i, ic).None?
    decreases |words|
  {
    if words != [] {
      var w := words[0];
      if i + |w| <= |s| {
        assert s[i..i + |w|][0] == s[i];
      }
      assert AltMatch(Literal(w), s, i, ic).None?;
      assert Literals(words)[1..] == Literals(words[1..]);
      NoWordAt(words[1..], s, i, ic);
    }
  }

  /** The first word that starts with the character at `i` is spelled out there and followed by `]`. */
  lemma {:induction false} WordAt(words: seq<string>, s: string, i: nat, ic: bool, k: nat)
    requires k < |words| && i + |words[k]| < |s|
    requires forall j :: 0 <= j < k ==> words[j] != [] && UpperChar(s[i]) != UpperChar(words[j][0])
    requires s[i..i + |words[k]|] == words[k] && s[i + |words[k]|] == ']'
    ensures FirstAltBeforeClose(Literals(words), s, i, ic) == Some(|words[k]|)
    decreases k
  {
    var w := words[0];
    assert Literals(words)[1..] == Literals(words[1..]);
    if k == 0 {
      assert SameText(s[i..i + |w|], w, ic);
    } else {
      if i + |w| <= |s| {
        assert s[i..i + |w|][0] == s[i];
      }
      assert AltMatch(Literal(w), s, i, ic).None?;
      WordAt(words[1..], s, i, ic, k - 1);
    }
  }

  lemma SampleFirstModifier(ic: bool)
    ensures Search(ModifierPattern(DefaultModifiers, ic), Sample, 0) == Some((1, 6))
  {
    var p := ModifierPattern(DefaultModifiers, ic);
    NoWordAt(DefaultModifiers, Sample, 1, ic);
    assert MatchAt(p, Sample, 0).None?;
    SampleDone();
    WordAt(DefaultModifiers, Sample, 2, ic, 0);
    assert MatchAt(p, Sample, 1) == Some(6);
  }

  lemma SampleSecondModifier(ic: bool)
    ensures Search(ModifierPattern(DefaultModifiers, ic), Sample, 7) == Some((8, 8))
  {
    var p := ModifierPattern(DefaultModifiers, ic);
    assert MatchAt(p, Sample, 7).None?;
    SampleReview();
    WordAt(DefaultModifiers, Sample, 9, ic, 1);
    assert MatchAt(p, Sample, 8) == Some(8);
  }

  lemma SampleModifierMatches(ic: bool)
    ensures Matches(ModifierPattern(DefaultModifiers, ic), Sample, 0) == [(1, 6), (8, 8)]
  {
    var p := ModifierPattern(DefaultModifiers, ic);
    SampleFirstModifier(ic);
    SampleSecondModifier(ic);
    NoOpenNoMatch(p, Sample, 16);
    assert Matches(p, Sample, 16) == [];
    assert Matches(p, Sample, 7) == [(8, 8)];
  }

  /** Removing the modifiers leaves an empty bracket pair behind. */
  lemma SampleEmptyBracket()
    ensures Matches(EmptyBracket, "[ ] text", 0) == [(0, 3)]
  {
    var t := "[ ] text";
    assert NonWordEnd(t, 1) == 4;
    assert LastClose(t, 1, 4) == Some(2);
    assert MatchAt(EmptyBracket, t, 0) == Some(3);
    NoOpenNoMatch(EmptyBracket, t, 3);
  }

  lemma SampleDone()
    ensures Sample[1..7] == "[DONE]" && Sample[2..6] == "DONE"
  {
    var t := "[[DONE] [REVIEW]] text";
    assert Sample == t;
    assert t[1..7] == "[DONE]" && t[2..6] == "DONE";
  }

  lemma SampleReview()
    ensures Sample[8..16] == "[REVIEW]" && Sample[9..15] == "REVIEW"
  {
    var t := "[[DONE] [REVIEW]] text";
    assert Sample == t;
    assert t[8..16] == "[REVIEW]" && t[9..15] == "REVIEW";
  }

  lemma SampleRest()
    ensures Sample[0..1] + Sample[7..8] + Sample[16..] == "[ ] text"
  {
    var t := "[[DONE] [REVIEW]] text";
    assert Sample == t;
    assert t[0..1] + t[7..8] + t[16..] == "[ ] text";
  }

  lemma SampleFound()
    ensures FindAll(ModifierPattern(DefaultModifiers, true), Sample) == ["[DONE]", "[REVIEW]"]
  {
    var p := ModifierPattern(DefaultModifiers, true);
    SampleModifierMatches(true);
    var ms := [(1, 6), (8, 8)];
    assert MatchTexts(Sample, 16, ms[2..]) == [];
    assert MatchTexts(Sample, 0, ms) == [Sample[1..7], Sample[8..16]];
    assert FindAll(p, Sample) == MatchTexts(Sample, 0, ms);
    SampleDone();
    SampleReview();
  }

  lemma SampleKept()
    ensures Sub(ModifierPattern(DefaultModifiers, false), Sample, IgnoreCaseFlag) == "[ ] text"
  {
    var p := ModifierPattern(DefaultModifiers, false);
    SampleModifierMatches(false);
    var ms := [(1, 6), (8, 8)];
    assert Sub(p, Sample, IgnoreCaseFlag) == Without(Sample, 0, ms, 2);
    assert Without(Sample, 16, ms[2..], 0) == Sample[16..];
    assert Without(Sample, 7, ms[1..], 1) == Sample[7..8] + Sample[16..];
    assert Without(Sample, 0, ms, 2) == Sample[0..1] + Sample[7..8] + Sample[16..];
    SampleRest();
  }

  lemma SampleCleaned()
    ensures Sub(EmptyBracket, "[ ] text", 0) == " text"
  {
    SampleEmptyBracket();
    assert Without("[ ] text", 3, [], 0) == " text";
  }

  lemma StripSample()
    ensures Strip(" text") == "text"
  {
    assert StripStart(" text", 1) == 1;
    assert StripStart(" text", 0) == 1;
    assert StripEnd(" text", 1, 5) == 5;
  }

  /**
   * `'[[DONE] [REVIEW]] text'` yields the modifiers `[DONE]` and `[REVIEW]`
   * and, once stripped, the comment `text`: the outer brackets are left empty
   * by the removal and then removed themselves.
   */
  lemma ParseModifiersSample()
    ensures ParseModifiers(Sample, DefaultModifiers) == (["[DONE]", "[REVIEW]"], " text")
    ensures Strip(ParseModifiers(Sample, DefaultModifiers).1) == "text"
  {
    SampleFound();
    SampleKept();
    SampleCleaned();
    StripSample();
  }
}
