/**
 * The regular expressions of the modelled code, as a closed set of pattern
 * shapes with Python's `re` semantics: alternatives are tried in order,
 * `\d+` and `\W*` are greedy and backtrack, and `search`, `split`, `findall`
 * and `sub` scan for leftmost, non-overlapping matches.
 */
module Patterns {
  import opened Wrappers
  import opened Text

  /** One alternative of an alternation `a|b|...`. */
  datatype Alt =
    | Numbered(prefix: string)   // `prefix-\d+`
    | Literal(word: string)      // the word itself

  datatype Pattern =
    | Plain(alts: seq<Alt>, ignoreCase: bool)      // `(alt)|(alt)|...`
    | Bracketed(alts: seq<Alt>, ignoreCase: bool)  // `(\[(?:alt|alt|...)\])`
    | EmptyBracket                                 // `\[\W*\]`

  /** `'|'.join([])` is the empty pattern: a single empty alternative. */
  function Alternatives(alts: seq<Alt>): (r: seq<Alt>)
    ensures r != []
  {
    if alts == [] then [Literal("")] else alts
  }

  predicate SameText(a: string, b: string, ignoreCase: bool) {
    if ignoreCase then EqualIgnoringCase(a, b) else a == b
  }

  /** The length of the longest match of `alt` at `s[i..]`, if any. */
  function AltMatch(alt: Alt, s: string, i: nat, ignoreCase: bool): (r: Option<nat>)
    requires i <= |s|
    ensures r.Some? ==> i + r.value <= |s|
  {
    match alt
    case Literal(w) =>
      if i + |w| <= |s| && SameText(s[i..i + |w|], w, ignoreCase) then Some(|w|) else None
    case Numbered(p) =>
      var j := i + |p|;
      if j < |s| && SameText(s[i..j], p, ignoreCase) && s[j] == '-' && DigitRun(s, j + 1) > 0
      then Some(|p| + 1 + DigitRun(s, j + 1))
      else None
  }

  /** The first alternative that matches at `i`. */
  function FirstAlt(alts: seq<Alt>, s: string, i: nat, ignoreCase: bool): (r: Option<nat>)
    requires i <= |s|
    ensures r.Some? ==> i + r.value <= |s|
  {
    if alts == [] then None
    else match AltMatch(alts[0], s, i, ignoreCase)
      case Some(n) => Some(n)
      case None => FirstAlt(alts[1..], s, i, ignoreCase)
  }

  /**
   * The first alternative that matches at `i` and is followed by `]`.
   * Backtracking `\d+` cannot help, as a shorter digit run is followed by a digit.
   */
  function FirstAltBeforeClose(alts: seq<Alt>, s: string, i: nat, ignoreCase: bool): (r: Option<nat>)
    requires i <= |s|
    ensures r.Some? ==> i + r.value < |s| && s[i + r.value] == ']'
  {
    if alts == [] then None
    else match AltMatch(alts[0], s, i, ignoreCase)
      case Some(n) =>
        if i + n < |s| && s[i + n] == ']' then Some(n)
        else FirstAltBeforeClose(alts[1..], s, i, ignoreCase)
      case None => FirstAltBeforeClose(alts[1..], s, i, ignoreCase)
  }

  /** The end of the run of non-word characters starting at `j`. */
  function NonWordEnd(s: string, j: nat): (e: nat)
    requires j <= |s|
    ensures j <= e <= |s|
    ensures forall k :: j <= k < e ==> !IsWordChar(s[k])
    ensures e == |s| || IsWordChar(s[e])
    decreases |s| - j
  {
    if j < |s| && !IsWordChar(s[j]) then NonWordEnd(s, j + 1) else j
  }

  /** The last `]` in `s[lo..e]`. */
  function LastClose(s: string, lo: nat, e: nat): (r: Option<nat>)
    requires lo <= e <= |s|
    ensures r.Some? ==> lo <= r.value < e && s[r.value] == ']'
    ensures r.Some? ==> forall k :: r.value < k < e ==> s[k] != ']'
    ensures r.None? ==> forall k :: lo <= k < e ==> s[k] != ']'
    decreases e - lo
  {
    if e <= lo then None
    else if s[e - 1] == ']' then Some(e - 1)
    else LastClose(s, lo, e - 1)
  }

  /** The length of the match of `p` starting exactly at `i`, if any. */
  function MatchAt(p: Pattern, s: string, i: nat): (r: Option<nat>)
    requires i <= |s|
    ensures r.Some? ==> i + r.value <= |s|
    ensures r.Some? && !p.Plain? ==> r.value >= 2 && s[i] == '[' && s[i + r.value - 1] == ']'
  {
    match p
    case Plain(alts, ic) => FirstAlt(Alternatives(alts), s, i, ic)
    case Bracketed(alts, ic) =>
      if i < |s| && s[i] == '[' then
        match FirstAltBeforeClose(Alternatives(alts), s, i + 1, ic)
        case Some(n) => Some(n + 2)
        case None => None
      else None
    case EmptyBracket =>
      if i < |s| && s[i] == '[' then
        match LastClose(s, i + 1, NonWordEnd(s, i + 1))
        case Some(k) => Some(k - i + 1)
        case None => None
      else None
  }

  /**
   * `re.search` from `i`: the leftmost match, as (start, length).
   * SearchIsLeftmost states that it is the leftmost match.
   */
  function Search(p: Pattern, s: string, i: nat): (r: Option<(nat, nat)>)
    requires i <= |s|
    ensures r.Some? ==> i <= r.value.0 && r.value.0 + r.value.1 <= |s|
    ensures r.Some? && !p.Plain? ==> r.value.1 >= 2
    decreases |s| - i
  {
    match MatchAt(p, s, i)
    case Some(n) => Some((i, n))
    case None => if i == |s| then None else Search(p, s, i + 1)
  }

  /** `Search` finds a match, and no match starts earlier; or there is none at all. */
  lemma SearchIsLeftmost(p: Pattern, s: string, i: nat)
    requires i <= |s|
    ensures Search(p, s, i).Some? ==> MatchAt(p, s, Search(p, s, i).value.0) == Some(Search(p, s, i).value.1)
    ensures Search(p, s, i).Some? ==> forall j :: i <= j < Search(p, s, i).value.0 ==> MatchAt(p, s, j).None?
    ensures Search(p, s, i).None? ==> forall j :: i <= j <= |s| ==> MatchAt(p, s, j).None?
  {
    SearchFound(p, s, i);
    SearchNothingEarlier(p, s, i);
    SearchNothing(p, s, i);
  }

  lemma {:induction false} SearchFound(p: Pattern, s: string, i: nat)
    requires i <= |s|
    ensures Search(p, s, i).Some? ==> MatchAt(p, s, Search(p, s, i).value.0) == Some(Search(p, s, i).value.1)
    decreases |s| - i
  {
    if MatchAt(p, s, i).None? && i < |s| {
      SearchFound(p, s, i + 1);
    }
  }

  lemma {:induction false} SearchNothingEarlier(p: Pattern, s: string, i: nat)
    requires i <= |s|
    ensures Search(p, s, i).Some? ==> forall j :: i <= j < Search(p, s, i).value.0 ==> MatchAt(p, s, j).None?
    decreases |s| - i
  {
    if MatchAt(p, s, i).None? && i < |s| {
      SearchNothingEarlier(p, s, i + 1);
    }
  }

  lemma {:induction false} SearchNothing(p: Pattern, s: string, i: nat)
    requires i <= |s|
    ensures Search(p, s, i).None? ==> forall j :: i <= j <= |s| ==> MatchAt(p, s, j).None?
    decreases |s| - i
  {
    if MatchAt(p, s, i).None? && i < |s| {
      SearchNothing(p, s, i + 1);
    }
  }

  /** `Search` stopping at `j` with length `n`: a match there, and none between `i` and `j`. */
  lemma SearchAt(p: Pattern, s: string, i: nat, j: nat, n: nat)
    requires i <= |s| && Search(p, s, i) == Some((j, n))
    ensures j <= |s| && MatchAt(p, s, j) == Some(n)
    ensures forall k :: i <= k < j ==> MatchAt(p, s, k).None?
  {
    SearchFound(p, s, i);
    SearchNothingEarlier(p, s, i);
  }

  /** Match positions that are ascending, non-overlapping and inside `s[lo..len]`. */
  predicate Ordered(ms: seq<(nat, nat)>, lo: nat, len: nat) {
    ms == [] || (lo <= ms[0].0 && ms[0].0 + ms[0].1 <= len && Ordered(ms[1..], ms[0].0 + ms[0].1, len))
  }

  /** The successive leftmost, non-overlapping matches in `s[i..]`, as (start, length). */
  function Matches(p: Pattern, s: string, i: nat): (ms: seq<(nat, nat)>)
    requires !p.Plain? && i <= |s|
    ensures Ordered(ms, i, |s|)
    decreases |s| - i
  {
    match Search(p, s, i)
    case None => []
    case Some((j, n)) =>
      var rest := Matches(p, s, j + n);
      assert ([(j, n)] + rest)[1..] == rest;
      [(j, n)] + rest
  }

  /** The texts between and at the matches: text, match, text, ..., text. */
  function Pieces(s: string, i: nat, ms: seq<(nat, nat)>): (r: seq<string>)
    requires i <= |s| && Ordered(ms, i, |s|)
    ensures |r| == 2 * |ms| + 1
    decreases |ms|
  {
    if ms == [] then [s[i..]]
    else [s[i..ms[0].0], s[ms[0].0..ms[0].0 + ms[0].1]] + Pieces(s, ms[0].0 + ms[0].1, ms[1..])
  }

  /** The texts of the matches. */
  function MatchTexts(s: string, i: nat, ms: seq<(nat, nat)>): (r: seq<string>)
    requires i <= |s| && Ordered(ms, i, |s|)
    ensures |r| == |ms|
    decreases |ms|
  {
    if ms == [] then []
    else [s[ms[0].0..ms[0].0 + ms[0].1]] + MatchTexts(s, ms[0].0 + ms[0].1, ms[1..])
  }

  /** `s[i..]` without its first `drop` matches. */
  function Without(s: string, i: nat, ms: seq<(nat, nat)>, drop: nat): string
    requires i <= |s| && Ordered(ms, i, |s|)
    decreases |ms|
  {
    if ms == [] || drop == 0 then s[i..]
    else s[i..ms[0].0] + Without(s, ms[0].0 + ms[0].1, ms[1..], drop - 1)
  }

  /** `re.split(p, s)` for a pattern that is one capturing group. */
  function Split(p: Pattern, s: string): seq<string>
    requires !p.Plain?
  {
    Pieces(s, 0, Matches(p, s, 0))
  }

  /** `re.findall(p, s)`. */
  function FindAll(p: Pattern, s: string): seq<string>
    requires !p.Plain?
  {
    MatchTexts(s, 0, Matches(p, s, 0))
  }

  /** `re.sub(p, '', s, count)`: removes the first `count` matches, every match when `count` is 0. */
  function Sub(p: Pattern, s: string, count: nat): string
    requires !p.Plain?
  {
    var ms := Matches(p, s, 0);
    Without(s, 0, ms, if count == 0 then |ms| else count)
  }

  // ----- what the scanning functions compute, in terms of Split -------------

  function Concat(pieces: seq<string>): string {
    if pieces == [] then "" else pieces[0] + Concat(pieces[1..])
  }

  /** The odd pieces of a split: the matches. */
  function Odds(pieces: seq<string>): seq<string> {
    if |pieces| < 2 then [] else [pieces[1]] + Odds(pieces[2..])
  }

  /** Glues a split back together, leaving out its first `drop` matches. */
  function Rejoin(pieces: seq<string>, drop: nat): string {
    if |pieces| < 2 then Concat(pieces)
    else pieces[0] + (if drop > 0 then "" else pieces[1]) + Rejoin(pieces[2..], if drop > 0 then drop - 1 else 0)
  }

  lemma {:induction false} PiecesConcat(s: string, i: nat, ms: seq<(nat, nat)>)
    requires i <= |s| && Ordered(ms, i, |s|)
    ensures Concat(Pieces(s, i, ms)) == s[i..]
    decreases |ms|
  {
    if ms != [] {
      var j, e := ms[0].0, ms[0].0 + ms[0].1;
      PiecesConcat(s, e, ms[1..]);
      var r := Pieces(s, i, ms);
      assert r[1..][1..] == Pieces(s, e, ms[1..]);
      assert s[i..] == s[i..j] + (s[j..e] + s[e..]);
    }
  }

  /** Splitting loses nothing: the pieces spell the input. */
  lemma SplitConcat(p: Pattern, s: string)
    requires !p.Plain?
    ensures Concat(Split(p, s)) == s
  {
    PiecesConcat(s, 0, Matches(p, s, 0));
  }

  lemma {:induction false} MatchTextsAreOdds(s: string, i: nat, ms: seq<(nat, nat)>)
    requires i <= |s| && Ordered(ms, i, |s|)
    ensures MatchTexts(s, i, ms) == Odds(Pieces(s, i, ms))
    decreases |ms|
  {
    if ms != [] {
      MatchTextsAreOdds(s, ms[0].0 + ms[0].1, ms[1..]);
      assert Pieces(s, i, ms)[2..] == Pieces(s, ms[0].0 + ms[0].1, ms[1..]);
    }
  }

  /** `findall` returns exactly the matches of `split`, in order. */
  lemma FindAllIsOdds(p: Pattern, s: string)
    requires !p.Plain?
    ensures FindAll(p, s) == Odds(Split(p, s))
  {
    MatchTextsAreOdds(s, 0, Matches(p, s, 0));
  }

  lemma {:induction false} WithoutIsRejoin(s: string, i: nat, ms: seq<(nat, nat)>, drop: nat)
    requires i <= |s| && Ordered(ms, i, |s|)
    ensures Without(s, i, ms, drop) == Rejoin(Pieces(s, i, ms), drop)
    decreases |ms|
  {
    if ms == [] {
      WithoutNothing(s, i, drop);
    } else if drop == 0 {
      WithoutIsRejoin(s, ms[0].0 + ms[0].1, ms[1..], 0);
      WithoutKeepStep(s, i, ms);
    } else {
      WithoutIsRejoin(s, ms[0].0 + ms[0].1, ms[1..], drop - 1);
      WithoutDropStep(s, i, ms, drop);
    }
  }

  lemma WithoutNothing(s: string, i: nat, drop: nat)
    requires i <= |s|
    ensures Without(s, i, [], drop) == Rejoin(Pieces(s, i, []), drop)
  {
    assert Pieces(s, i, []) == [s[i..]];
    assert [s[i..]][1..] == [];
    assert Concat([s[i..]]) == s[i..] + Concat([]);
  }

  lemma WithoutKeepStep(s: string, i: nat, ms: seq<(nat, nat)>)
    requires i <= |s| && Ordered(ms, i, |s|) && ms != []
    requires Without(s, ms[0].0 + ms[0].1, ms[1..], 0) == Rejoin(Pieces(s, ms[0].0 + ms[0].1, ms[1..]), 0)
    ensures Without(s, i, ms, 0) == Rejoin(Pieces(s, i, ms), 0)
  {
    var j, e := ms[0].0, ms[0].0 + ms[0].1;
    var r := Pieces(s, i, ms);
    assert r[0] == s[i..j] && r[1] == s[j..e] && r[2..] == Pieces(s, e, ms[1..]);
    assert Rejoin(r, 0) == r[0] + r[1] + Rejoin(r[2..], 0);
    assert s[i..] == s[i..j] + s[j..e] + s[e..];
  }

  lemma WithoutDropStep(s: string, i: nat, ms: seq<(nat, nat)>, drop: nat)
    requires i <= |s| && Ordered(ms, i, |s|) && ms != [] && drop > 0
    requires Without(s, ms[0].0 + ms[0].1, ms[1..], drop - 1) == Rejoin(Pieces(s, ms[0].0 + ms[0].1, ms[1..]), drop - 1)
    ensures Without(s, i, ms, drop) == Rejoin(Pieces(s, i, ms), drop)
  {
    var j, e := ms[0].0, ms[0].0 + ms[0].1;
    var r := Pieces(s, i, ms);
    assert r[0] == s[i..j] && r[2..] == Pieces(s, e, ms[1..]);
    assert Rejoin(r, drop) == r[0] + "" + Rejoin(r[2..], drop - 1);
    assert r[0] + "" == r[0];
  }

  /** Dropping at least as many matches as there are drops all of them. */
  lemma {:induction false} WithoutEnough(s: string, i: nat, ms: seq<(nat, nat)>, d1: nat, d2: nat)
    requires i <= |s| && Ordered(ms, i, |s|)
    requires d1 >= |ms| && d2 >= |ms|
    ensures Without(s, i, ms, d1) == Without(s, i, ms, d2)
    decreases |ms|
  {
    if ms != [] {
      WithoutEnough(s, ms[0].0 + ms[0].1, ms[1..], d1 - 1, d2 - 1);
    }
  }

  /** `sub` removes the first `count` matches (all of them for 0) and keeps every other piece. */
  lemma SubIsRejoin(p: Pattern, s: string, count: nat)
    requires !p.Plain?
    ensures Sub(p, s, count) == Rejoin(Split(p, s), if count == 0 then |Split(p, s)| else count)
  {
    var ms := Matches(p, s, 0);
    var drop := if count == 0 then |Split(p, s)| else count;
    WithoutIsRejoin(s, 0, ms, drop);
    if count == 0 {
      WithoutEnough(s, 0, ms, |ms|, drop);
    }
  }

  // ----- what a match looks like --------------------------------------------

  /** `t` is spelled by alternative `alt`: the word itself, or prefix, dash and digits. */
  predicate AltText(alt: Alt, t: string, ignoreCase: bool) {
    match alt
    case Literal(w) => SameText(t, w, ignoreCase)
    case Numbered(p) =>
      |t| > |p| + 1 && SameText(t[..|p|], p, ignoreCase) && t[|p|] == '-' && AllDigits(t[|p| + 1..])
  }

  lemma AltMatchText(alt: Alt, s: string, i: nat, ignoreCase: bool, n: nat)
    requires i <= |s| && AltMatch(alt, s, i, ignoreCase) == Some(n)
    ensures i + n <= |s| && AltText(alt, s[i..i + n], ignoreCase)
  {
    if alt.Numbered? {
      var p := alt.prefix;
      var j := i + |p|;
      var d := DigitRun(s, j + 1);
      var t := s[i..j + 1 + d];
      assert t[..|p|] == s[i..j];
      assert t[|p| + 1..] == s[j + 1..j + 1 + d];
    }
  }

  /** The alternative `FirstAltBeforeClose` settles on spells the text it matched: the one at `k`. */
  lemma {:induction false} FirstAltBeforeCloseText(alts: seq<Alt>, s: string, i: nat, ignoreCase: bool, n: nat) returns (k: nat)
    requires i <= |s| && FirstAltBeforeClose(alts, s, i, ignoreCase) == Some(n)
    ensures k < |alts| && AltText(alts[k], s[i..i + n], ignoreCase)
  {
    var head := FirstAltBeforeCloseStep(alts, s, i, ignoreCase, n);
    if head {
      k := 0;
      AltMatchText(alts[0], s, i, ignoreCase, n);
    } else {
      var k' := FirstAltBeforeCloseText(alts[1..], s, i, ignoreCase, n);
      k := k' + 1;
      AltTextSame(alts[1..][k'], alts[k], s[i..i + n], s[i..i + n], ignoreCase);
    }
  }

  /** `FirstAltBeforeClose` settles on the first alternative, or on one of the others. */
  lemma FirstAltBeforeCloseStep(alts: seq<Alt>, s: string, i: nat, ignoreCase: bool, n: nat) returns (head: bool)
    requires i <= |s| && FirstAltBeforeClose(alts, s, i, ignoreCase) == Some(n)
    ensures alts != []
    ensures head ==> AltMatch(alts[0], s, i, ignoreCase) == Some(n)
    ensures !head ==> FirstAltBeforeClose(alts[1..], s, i, ignoreCase) == Some(n)
  {
    var m := AltMatch(alts[0], s, i, ignoreCase);
    head := m.Some? && i + m.value < |s| && s[i + m.value] == ']';
  }

  /** A match of a bracketed alternation is `[`, the text of one alternative, `]`. */
  lemma BracketedText(alts: seq<Alt>, ignoreCase: bool, s: string, i: nat) returns (k: nat, n: nat)
    requires i <= |s| && MatchAt(Bracketed(alts, ignoreCase), s, i).Some?
    ensures MatchAt(Bracketed(alts, ignoreCase), s, i) == Some(n + 2) && i + n + 2 <= |s|
    ensures s[i] == '[' && s[i + n + 1] == ']'
    ensures k < |Alternatives(alts)| && AltText(Alternatives(alts)[k], s[i + 1..i + 1 + n], ignoreCase)
  {
    var all := Alternatives(alts);
    n := FirstAltBeforeClose(all, s, i + 1, ignoreCase).value;
    k := FirstAltBeforeCloseText(all, s, i + 1, ignoreCase, n);
  }

  lemma AltTextSame(alt: Alt, alt': Alt, a: string, b: string, ignoreCase: bool)
    requires alt == alt' && a == b && AltText(alt, a, ignoreCase)
    ensures AltText(alt', b, ignoreCase)
  {
  }

  /** The inside of `s[i..i + n + 2]` is `s[i + 1..i + 1 + n]`. */
  lemma SliceOfSlice(s: string, i: nat, n: nat)
    requires i + n + 2 <= |s|
    ensures var t := s[i..i + n + 2]; |t| == n + 2 && t[1..|t| - 1] == s[i + 1..i + 1 + n]
  {
    var t := s[i..i + n + 2];
    var u := t[1..|t| - 1];
    assert forall m :: 0 <= m < n ==> u[m] == s[i + 1 + m];
  }

  /** The `k`-th match text is the text at the `k`-th position. */
  lemma {:induction false} MatchTextsIndex(s: string, i: nat, ms: seq<(nat, nat)>, k: nat)
    requires i <= |s| && Ordered(ms, i, |s|) && k < |ms|
    ensures ms[k].0 + ms[k].1 <= |s| && MatchTexts(s, i, ms)[k] == s[ms[k].0..ms[k].0 + ms[k].1]
    decreases |ms|
  {
    if k > 0 {
      MatchTextsIndex(s, ms[0].0 + ms[0].1, ms[1..], k - 1);
    }
  }

  /** Each position in `ms` is a match of `p` there. */
  predicate Found(p: Pattern, s: string, ms: seq<(nat, nat)>) {
    ms == [] || (ms[0].0 <= |s| && MatchAt(p, s, ms[0].0) == Some(ms[0].1) && Found(p, s, ms[1..]))
  }

  lemma {:induction false} FoundAt(p: Pattern, s: string, ms: seq<(nat, nat)>, k: nat)
    requires Found(p, s, ms) && k < |ms|
    ensures ms[k].0 <= |s| && MatchAt(p, s, ms[k].0) == Some(ms[k].1)
    decreases k
  {
    if k > 0 {
      FoundAt(p, s, ms[1..], k - 1);
    }
  }

  /** Every position `Matches` reports is a match of the pattern there. */
  lemma {:induction false} MatchesFound(p: Pattern, s: string, i: nat)
    requires !p.Plain? && i <= |s|
    ensures Found(p, s, Matches(p, s, i))
    decreases |s| - i
  {
    var r := Search(p, s, i);
    if r.Some? {
      var m := r.value;
      MatchesFound(p, s, m.0 + m.1);
      FoundCons(p, s, i, m, Matches(p, s, m.0 + m.1));
      MatchesStep(p, s, i, m);
    }
  }

  lemma MatchesStep(p: Pattern, s: string, i: nat, m: (nat, nat))
    requires !p.Plain? && i <= |s| && Search(p, s, i) == Some(m)
    ensures Matches(p, s, i) == [m] + Matches(p, s, m.0 + m.1)
  {
  }

  /** A match found by `Search`, followed by found matches, are found matches. */
  lemma FoundCons(p: Pattern, s: string, i: nat, m: (nat, nat), rest: seq<(nat, nat)>)
    requires i <= |s| && Search(p, s, i) == Some(m) && Found(p, s, rest)
    ensures Found(p, s, [m] + rest)
  {
    SearchFound(p, s, i);
    assert ([m] + rest)[1..] == rest;
  }

  /** Every text `findall` returns is a match of the pattern. */
  lemma FindAllAt(p: Pattern, s: string, k: nat) returns (j: nat)
    requires !p.Plain? && k < |FindAll(p, s)|
    ensures j + |FindAll(p, s)[k]| <= |s| && s[j..j + |FindAll(p, s)[k]|] == FindAll(p, s)[k]
    ensures MatchAt(p, s, j) == Some(|FindAll(p, s)[k]|)
  {
    var ms := Matches(p, s, 0);
    MatchTextsIndex(s, 0, ms, k);
    MatchesFound(p, s, 0);
    FoundAt(p, s, ms, k);
    j := ms[k].0;
  }

  /** The odd pieces, by position. */
  lemma {:induction false} OddsAt(pieces: seq<string>)
    ensures |Odds(pieces)| == |pieces| / 2
    ensures forall k :: 0 <= k < |pieces| / 2 ==> Odds(pieces)[k] == pieces[2 * k + 1]
    decreases |pieces|
  {
    if |pieces| >= 2 {
      OddsAt(pieces[2..]);
    }
  }
}
