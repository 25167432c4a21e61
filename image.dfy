/**
 * Model of fffutils/image.py: turning a card text into the words handed to the
 * phrase matcher, counting the matcher's votes per image pattern and ranking
 * them, and parsing the lines of a category's keyword file.
 *
 * The language pipeline (tokenising, lemma matching, the German stop-word list)
 * is abstracted: the stop words are a parameter, and the ranking takes the
 * sequence of matched pattern names as its input. File reading is abstracted
 * too: `load_keywords` receives the lines of each category's file.
 */
module Image {
  import opened Wrappers
  import opened Text

  // ---------------------------------------------------------------------------
  // Words
  // ---------------------------------------------------------------------------

  /** The text with every `Falsch:` deleted and every `-` turned into a space. */
  function Cleaned(text: string): string {
    Replace(Replace(text, "Falsch:", ""), "-", " ")
  }

  /** `[w.lower() for w in ws]`. */
  function LowerEach(ws: seq<string>): (r: seq<string>)
    ensures |r| == |ws|
  {
    if ws == [] then [] else [Lower(ws[0])] + LowerEach(ws[1..])
  }

  lemma {:induction false} LowerEachAt(ws: seq<string>)
    ensures forall k :: 0 <= k < |ws| ==> LowerEach(ws)[k] == Lower(ws[k])
  {
    if ws != [] {
      LowerEachAt(ws[1..]);
    }
  }

  /**
   * The words of `recommend_images`: delete `Falsch:`, replace `-` by a space,
   * split on single spaces, lower-case each piece.
   */
  function Words(text: string): seq<string> {
    LowerEach(Split(Cleaned(text), " "))
  }

  /** Lower-casing a string twice is lower-casing it once. */
  lemma {:induction false} LowerIdempotent(s: string)
    ensures Lower(Lower(s)) == Lower(s)
  {
    if s != [] {
      LowerIdempotent(s[1..]);
    }
  }

  /** Lower-casing never produces, nor removes, a space or a hyphen. */
  lemma {:induction false} LowerKeeps(s: string, c: char)
    requires c == ' ' || c == '-'
    ensures c in Lower(s) <==> c in s
  {
    if s != [] {
      LowerKeeps(s[1..], c);
      assert Lower(s) == [LowerChar(s[0])] + Lower(s[1..]);
      assert s == [s[0]] + s[1..];
    }
  }

  /** Lower-casing is done character by character, so it commutes with concatenation. */
  lemma {:induction false} LowerAppend(a: string, b: string)
    ensures Lower(a + b) == Lower(a) + Lower(b)
  {
    if a == [] {
      assert a + b == b;
    } else {
      calc {
        Lower(a + b);
        == { assert (a + b)[0] == a[0] && (a + b)[1..] == a[1..] + b; }
        [LowerChar(a[0])] + Lower(a[1..] + b);
        == { LowerAppend(a[1..], b); }
        [LowerChar(a[0])] + (Lower(a[1..]) + Lower(b));
        ==
        Lower(a) + Lower(b);
      }
    }
  }

  /** Lower-casing a space-joined sequence of words is joining the lower-cased words. */
  lemma {:induction false} LowerJoin(ws: seq<string>)
    ensures Lower(Join(" ", ws)) == Join(" ", LowerEach(ws))
  {
    if |ws| > 1 {
      var rest := Join(" ", ws[1..]);
      LowerJoin(ws[1..]);
      LowerAppend(ws[0] + " ", rest);
      LowerAppend(ws[0], " ");
      assert Lower(" ") == " ";
      assert LowerEach(ws)[1..] == LowerEach(ws[1..]);
    }
  }

  /** A character of one of the joined parts is a character of the joined string. */
  lemma {:induction false} JoinHasParts(sep: string, parts: seq<string>, k: nat, c: char)
    requires k < |parts| && c in parts[k]
    ensures c in Join(sep, parts)
  {
    if k > 0 {
      JoinHasParts(sep, parts[1..], k - 1, c);
    }
  }

  /**
   * The words are lower-case and contain neither a space nor a hyphen, and
   * joining them with single spaces gives back the cleaned text, lower-cased.
   */
  lemma WordsShape(text: string)
    ensures forall k :: 0 <= k < |Words(text)| ==> Lower(Words(text)[k]) == Words(text)[k]
    ensures forall k :: 0 <= k < |Words(text)| ==> ' ' !in Words(text)[k] && '-' !in Words(text)[k]
    ensures Join(" ", Words(text)) == Lower(Cleaned(text))
  {
    var pieces := Split(Cleaned(text), " ");
    LowerEachAt(pieces);
    SplitPiecesAvoid(Cleaned(text), " ");
    ReplaceRemovesChar(Replace(text, "Falsch:", ""), '-', " ");
    JoinSplit(Cleaned(text), " ");
    forall k | 0 <= k < |pieces|
      ensures Lower(Words(text)[k]) == Words(text)[k]
      ensures ' ' !in Words(text)[k] && '-' !in Words(text)[k]
    {
      LowerIdempotent(pieces[k]);
      ContainsChar(pieces[k], ' ');
      LowerKeeps(pieces[k], ' ');
      LowerKeeps(pieces[k], '-');
      if '-' in pieces[k] {
        JoinHasParts(" ", pieces, k, '-');
      }
    }
    LowerJoin(pieces);
  }

  // ---------------------------------------------------------------------------
  // Stop words
  // ---------------------------------------------------------------------------

  /** `[w for w in words if w not in stop]`. */
  function WithoutStopWords(words: seq<string>, stop: set<string>): seq<string> {
    if words == [] then []
    else (if words[0] in stop then [] else [words[0]]) + WithoutStopWords(words[1..], stop)
  }

  /** Filtering a concatenation filters each part, in order. */
  lemma {:induction false} WithoutStopWordsAppend(a: seq<string>, b: seq<string>, stop: set<string>)
    ensures WithoutStopWords(a + b, stop) == WithoutStopWords(a, stop) + WithoutStopWords(b, stop)
  {
    if a == [] {
      assert a + b == b;
    } else {
      var head := if a[0] in stop then [] else [a[0]];
      calc {
        WithoutStopWords(a + b, stop);
        == { assert (a + b)[0] == a[0] && (a + b)[1..] == a[1..] + b; }
        head + WithoutStopWords(a[1..] + b, stop);
        == { WithoutStopWordsAppend(a[1..], b, stop); }
        head + (WithoutStopWords(a[1..], stop) + WithoutStopWords(b, stop));
        ==
        WithoutStopWords(a, stop) + WithoutStopWords(b, stop);
      }
    }
  }

  /** Exactly the stop words are removed, each occurrence of every other word is kept. */
  lemma {:induction false} WithoutStopWordsCounts(words: seq<string>, stop: set<string>, w: string)
    ensures multiset(WithoutStopWords(words, stop))[w] == if w in stop then 0 else multiset(words)[w]
  {
    if words != [] {
      WithoutStopWordsCounts(words[1..], stop, w);
      assert words == [words[0]] + words[1..];
    }
  }

  /** The string handed to the language pipeline: the kept words joined by single spaces. */
  function MatcherInput(text: string, stop: set<string>): string {
    Join(" ", WithoutStopWords(Words(text), stop))
  }

  // ---------------------------------------------------------------------------
  // Votes
  // ---------------------------------------------------------------------------

  predicate Distinct(s: seq<string>) {
    forall i, j :: 0 <= i < j < |s| ==> s[i] != s[j]
  }

  /** The position of the first occurrence of `x` in `s`. */
  function FirstIndex(s: seq<string>, x: string): (r: nat)
    requires x in s
    ensures r < |s| && s[r] == x
  {
    if s[0] == x then 0 else 1 + FirstIndex(s[1..], x)
  }

  /** Appending an element does not move the first occurrences of earlier elements. */
  lemma {:induction false} FirstIndexExtend(s: seq<string>, y: string, x: string)
    requires x in s + [y]
    ensures FirstIndex(s + [y], x) == if x in s then FirstIndex(s, x) else |s|
  {
    if s != [] && s[0] != x {
      assert (s + [y])[1..] == s[1..] + [y];
      FirstIndexExtend(s[1..], y, x);
    }
  }

  /** The names matched, each once, in order of first appearance: the key order of the `votes` dict. */
  function FirstSeen(matches: seq<string>): seq<string> {
    if matches == [] then []
    else
      var seen := FirstSeen(matches[..|matches| - 1]);
      var last := matches[|matches| - 1];
      if last in seen then seen else seen + [last]
  }

  /** Each matched name appears once in `FirstSeen`, and in the order of its first match. */
  lemma {:induction false} FirstSeenFacts(matches: seq<string>)
    ensures Distinct(FirstSeen(matches))
    ensures forall x :: x in FirstSeen(matches) <==> x in matches
    ensures forall i, j :: 0 <= i < j < |FirstSeen(matches)| ==>
      FirstIndex(matches, FirstSeen(matches)[i]) < FirstIndex(matches, FirstSeen(matches)[j])
  {
    if matches != [] {
      var init := matches[..|matches| - 1];
      var last := matches[|matches| - 1];
      assert matches == init + [last];
      FirstSeenFacts(init);
      var seen := FirstSeen(init);
      forall x | x in matches
        ensures FirstIndex(matches, x) == if x in init then FirstIndex(init, x) else |init|
      {
        FirstIndexExtend(init, last, x);
      }
    }
  }

  /** A name's vote, zero when it has none (as `Counter` reads a missing key). */
  function Vote(votes: map<string, nat>, name: string): nat {
    if name in votes then votes[name] else 0
  }

  /** The `votes` dict after the matches `matches`: one more vote for the name of each match. */
  function Votes(matches: seq<string>): map<string, nat> {
    if matches == [] then map[]
    else
      var votes := Votes(matches[..|matches| - 1]);
      var last := matches[|matches| - 1];
      votes[last := Vote(votes, last) + 1]
  }

  /** Exactly the matched names have votes, and each has as many votes as it has matches. */
  lemma {:induction false} VotesCount(matches: seq<string>)
    ensures forall x :: x in Votes(matches) <==> x in matches
    ensures forall x :: Vote(Votes(matches), x) == multiset(matches)[x]
  {
    if matches != [] {
      var init := matches[..|matches| - 1];
      assert matches == init + [matches[|matches| - 1]];
      VotesCount(init);
    }
  }

  /**
   * The loop of `recommend_images` that fills the `votes` dict: a name gets key
   * `0` when first seen and one vote per match. The keys, in insertion order,
   * are returned in `order`.
   */
  method Tally(matches: seq<string>) returns (votes: map<string, nat>, order: seq<string>)
    ensures votes == Votes(matches)
    ensures order == FirstSeen(matches)
  {
    votes := map[];
    order := [];
    for i := 0 to |matches|
      invariant votes == Votes(matches[..i])
      invariant order == FirstSeen(matches[..i])
    {
      var name := matches[i];
      assert matches[..i + 1][..i] == matches[..i];
      VotesCount(matches[..i]);
      FirstSeenFacts(matches[..i]);
      if name !in votes {
        votes := votes[name := 0];
        order := order + [name];
      }
      votes := votes[name := votes[name] + 1];
    }
    assert matches[..|matches|] == matches;
  }

  /** The votes of `names` added up. */
  function SumVotes(names: seq<string>, votes: map<string, nat>): nat {
    if names == [] then 0 else Vote(votes, names[0]) + SumVotes(names[1..], votes)
  }

  lemma {:induction false} SumVotesAppend(names: seq<string>, y: string, votes: map<string, nat>)
    ensures SumVotes(names + [y], votes) == SumVotes(names, votes) + Vote(votes, y)
  {
    if names != [] {
      assert (names + [y])[1..] == names[1..] + [y];
      SumVotesAppend(names[1..], y, votes);
    }
  }

  /** One more vote for `y` adds one to the sum over distinct names exactly when `y` is among them. */
  lemma {:induction false} SumVotesBump(names: seq<string>, y: string, votes: map<string, nat>)
    requires Distinct(names)
    ensures SumVotes(names, votes[y := Vote(votes, y) + 1]) == SumVotes(names, votes) + if y in names then 1 else 0
  {
    if names != [] {
      assert Distinct(names[1..]);
      assert names[0] == y ==> y !in names[1..];
      SumVotesBump(names[1..], y, votes);
    }
  }

  /** The votes add up to the number of matches. */
  lemma {:induction false} VotesTotal(matches: seq<string>)
    ensures SumVotes(FirstSeen(matches), Votes(matches)) == |matches|
  {
    if matches != [] {
      var init := matches[..|matches| - 1];
      var last := matches[|matches| - 1];
      var seen, votes := FirstSeen(init), Votes(init);
      assert Votes(matches) == votes[last := Vote(votes, last) + 1];
      VotesTotal(init);
      FirstSeenFacts(init);
      SumVotesBump(seen, last, votes);
      if last in seen {
        assert FirstSeen(matches) == seen;
      } else {
        assert FirstSeen(matches) == seen + [last];
        VotesCount(init);
        assert Vote(votes, last) == 0;
        SumVotesAppend(seen, last, Votes(matches));
      }
    }
  }

  // ---------------------------------------------------------------------------
  // Ranking: `Counter(votes).most_common()[:n]`
  // ---------------------------------------------------------------------------

  /**
   * `x` comes before `y` in `most_common()`: more votes, or as many and `x`
   * entered the dict first (`most_common` is a stable sort on the votes).
   */
  predicate Before(names: seq<string>, votes: map<string, nat>, x: string, y: string)
    requires x in names && y in names
  {
    Vote(votes, x) > Vote(votes, y) || (Vote(votes, x) == Vote(votes, y) && FirstIndex(names, x) < FirstIndex(names, y))
  }

  /** `r` lists names of `names`, each strictly before the ones after it. */
  predicate Ranked(r: seq<string>, votes: map<string, nat>, names: seq<string>) {
    (forall i :: 0 <= i < |r| ==> r[i] in names)
    && forall i, j :: 0 <= i < j < |r| ==> Before(names, votes, r[i], r[j])
  }

  /** Where `name` goes in `ranked`: after every name with at least as many votes. */
  function InsertAt(ranked: seq<string>, name: string, votes: map<string, nat>): (p: nat)
    ensures p <= |ranked|
    ensures forall k :: 0 <= k < p ==> Vote(votes, ranked[k]) >= Vote(votes, name)
    ensures p < |ranked| ==> Vote(votes, ranked[p]) < Vote(votes, name)
  {
    if ranked == [] || Vote(votes, ranked[0]) < Vote(votes, name) then 0
    else 1 + InsertAt(ranked[1..], name, votes)
  }

  function Insert(ranked: seq<string>, name: string, votes: map<string, nat>): (r: seq<string>)
    ensures multiset(r) == multiset(ranked) + multiset{name}
  {
    var p := InsertAt(ranked, name, votes);
    assert ranked == ranked[..p] + ranked[p..];
    ranked[..p] + [name] + ranked[p..]
  }

  /** The names of `names` ordered by descending votes, ties in the order of `names`. */
  function MostCommon(names: seq<string>, votes: map<string, nat>): seq<string> {
    if names == [] then []
    else Insert(MostCommon(names[..|names| - 1], votes), names[|names| - 1], votes)
  }

  /** Ranking relative to a shorter list carries over once a name is appended behind it. */
  lemma RankedExtend(r: seq<string>, votes: map<string, nat>, names: seq<string>, y: string)
    requires Ranked(r, votes, names)
    ensures Ranked(r, votes, names + [y])
  {
    forall x | x in names ensures FirstIndex(names + [y], x) == FirstIndex(names, x) {
      FirstIndexExtend(names, y, x);
    }
  }

  /** The elements of `Insert(r, y, votes)`: those of `r`, with `y` at the insertion point. */
  lemma InsertIndex(r: seq<string>, y: string, votes: map<string, nat>, k: nat)
    requires k <= |r|
    ensures var p := InsertAt(r, y, votes);
      Insert(r, y, votes)[k] == if k < p then r[k] else if k == p then y else r[k - 1]
  {
  }

  /** A name appended behind `names` comes after every name of `names`. */
  lemma NewestLast(names: seq<string>, y: string, x: string)
    requires x in names && y !in names
    ensures FirstIndex(names + [y], x) < FirstIndex(names + [y], y)
  {
    FirstIndexExtend(names, y, x);
    FirstIndexExtend(names, y, y);
  }

  /** Inserting the newest name, which loses every tie, keeps a ranking ranked. */
  lemma InsertRanked(r: seq<string>, votes: map<string, nat>, names: seq<string>, y: string)
    requires Ranked(r, votes, names) && y !in names
    ensures Ranked(Insert(r, y, votes), votes, names + [y])
  {
    var all := names + [y];
    RankedExtend(r, votes, names, y);
    var p := InsertAt(r, y, votes);
    var s := Insert(r, y, votes);
    forall i | 0 <= i < |s| ensures s[i] in all {
      InsertIndex(r, y, votes, i);
    }
    forall i, j | 0 <= i < j < |s| ensures Before(all, votes, s[i], s[j]) {
      InsertIndex(r, y, votes, i);
      InsertIndex(r, y, votes, j);
      if j == p {
        NewestLast(names, y, r[i]);
      } else if i == p && j - 1 > p {
        assert Before(all, votes, r[p], r[j - 1]);
      }
    }
  }

  /** `MostCommon` reorders distinct names into the ranking `most_common()` produces. */
  lemma {:induction false} MostCommonRanked(names: seq<string>, votes: map<string, nat>)
    requires Distinct(names)
    ensures multiset(MostCommon(names, votes)) == multiset(names)
    ensures Ranked(MostCommon(names, votes), votes, names)
  {
    if names != [] {
      var init, last := names[..|names| - 1], names[|names| - 1];
      assert names == init + [last];
      assert Distinct(init);
      MostCommonRanked(init, votes);
      InsertRanked(MostCommon(init, votes), votes, init, last);
    }
  }

  /** Two rankings of the same names start with the same name. */
  lemma RankedHeads(a: seq<string>, b: seq<string>, votes: map<string, nat>, names: seq<string>)
    requires Ranked(a, votes, names) && Ranked(b, votes, names)
    requires a != [] && multiset(a) == multiset(b)
    ensures b != [] && a[0] == b[0]
  {
    assert a[0] in multiset(b);
    var k :| 0 <= k < |b| && b[k] == a[0];
    assert b[0] in multiset(a);
    var m :| 0 <= m < |a| && a[m] == b[0];
    assert k == 0;
  }

  lemma MultisetTail(s: seq<string>)
    requires s != []
    ensures multiset(s[1..]) == multiset(s) - multiset{s[0]}
  {
    assert s == [s[0]] + s[1..];
  }

  /** Two rankings of the same names agree: the ranking `most_common()` produces is unique. */
  lemma {:induction false} RankedUnique(a: seq<string>, b: seq<string>, votes: map<string, nat>, names: seq<string>)
    requires Ranked(a, votes, names) && Ranked(b, votes, names)
    requires multiset(a) == multiset(b)
    ensures a == b
  {
    if a != [] {
      RankedHeads(a, b, votes, names);
      MultisetTail(a);
      MultisetTail(b);
      assert Ranked(a[1..], votes, names) && Ranked(b[1..], votes, names);
      RankedUnique(a[1..], b[1..], votes, names);
      assert a == [a[0]] + a[1..] && b == [b[0]] + b[1..];
    } else {
      assert |multiset(b)| == 0;
    }
  }

  /** Python's `s[:n]`: the first `n` elements, or all but the last `-n` when `n` is negative. */
  function Head(s: seq<string>, n: int): (r: seq<string>)
    ensures |r| <= |s| && r == s[..|r|]
    ensures |r| == if n >= 0 then (if n <= |s| then n else |s|) else (if |s| + n >= 0 then |s| + n else 0)
  {
    if n >= 0 then (if n <= |s| then s[..n] else s)
    else if |s| + n >= 0 then s[..|s| + n]
    else []
  }

  /**
   * `x` outranks `y` among the matches: it was matched more often, or as often
   * and matched first.
   */
  predicate Outranks(matches: seq<string>, x: string, y: string)
    requires x in matches && y in matches
  {
    multiset(matches)[x] > multiset(matches)[y]
    || (multiset(matches)[x] == multiset(matches)[y] && FirstIndex(matches, x) < FirstIndex(matches, y))
  }

  /** The names `recommend_images` returns for the matched pattern names `matches`. */
  function Recommend(matches: seq<string>, n: int): seq<string> {
    Head(MostCommon(FirstSeen(matches), Votes(matches)), n)
  }

  /** Ranking the dict's keys by their votes is ranking the matched names by their matches. */
  lemma BeforeIsOutranks(matches: seq<string>, x: string, y: string)
    requires x in FirstSeen(matches) && y in FirstSeen(matches)
    ensures x in matches && y in matches
    ensures Before(FirstSeen(matches), Votes(matches), x, y) <==> Outranks(matches, x, y)
  {
    var seen := FirstSeen(matches);
    FirstSeenFacts(matches);
    VotesCount(matches);
    var i, j := FirstIndex(seen, x), FirstIndex(seen, y);
    if i > j {
      assert FirstIndex(matches, seen[j]) < FirstIndex(matches, seen[i]);
    }
  }

  /** The ranking of the dict's keys: the matched names, each once, ranked. */
  lemma RankingOfMatches(matches: seq<string>)
    ensures var all := MostCommon(FirstSeen(matches), Votes(matches));
      && |all| == |FirstSeen(matches)|
      && (forall x :: x in all <==> x in matches)
      && Ranked(all, Votes(matches), FirstSeen(matches))
  {
    var seen, votes := FirstSeen(matches), Votes(matches);
    FirstSeenFacts(matches);
    MostCommonRanked(seen, votes);
    var all := MostCommon(seen, votes);
    assert |multiset(all)| == |multiset(seen)|;
    forall x ensures x in all <==> x in matches {
      assert x in all <==> x in multiset(all);
      assert x in seen <==> x in multiset(seen);
    }
  }

  /**
   * At most `n` names are recommended, exactly `n` when there are that many
   * distinct matched names and `n` is not negative; each is a matched name.
   */
  lemma RecommendSize(matches: seq<string>, n: int)
    ensures var r := Recommend(matches, n);
      && (n >= 0 ==> |r| <= n)
      && (0 <= n <= |FirstSeen(matches)| ==> |r| == n)
      && (forall i :: 0 <= i < |r| ==> r[i] in matches)
  {
    RankingOfMatches(matches);
    var r := Recommend(matches, n);
    var all := MostCommon(FirstSeen(matches), Votes(matches));
    forall i | 0 <= i < |r| ensures r[i] in matches {
      assert r[i] == all[i];
    }
  }

  /** Each recommended name outranks the ones after it: more matches, or as many and matched first. */
  lemma RecommendOrder(matches: seq<string>, n: int)
    ensures var r := Recommend(matches, n);
      forall i, j :: 0 <= i < j < |r| ==> r[i] in matches && r[j] in matches && Outranks(matches, r[i], r[j])
  {
    RankingOfMatches(matches);
    var r := Recommend(matches, n);
    var all := MostCommon(FirstSeen(matches), Votes(matches));
    forall i, j | 0 <= i < j < |r| ensures r[i] in matches && r[j] in matches && Outranks(matches, r[i], r[j]) {
      assert r[i] == all[i] && r[j] == all[j];
      BeforeIsOutranks(matches, r[i], r[j]);
    }
  }

  /** Every recommended name outranks every matched name left out. */
  lemma RecommendTop(matches: seq<string>, n: int)
    ensures var r := Recommend(matches, n);
      forall i, x :: 0 <= i < |r| && x in matches && x !in r ==> r[i] in matches && Outranks(matches, r[i], x)
  {
    RankingOfMatches(matches);
    var r := Recommend(matches, n);
    var all := MostCommon(FirstSeen(matches), Votes(matches));
    forall i, x | 0 <= i < |r| && x in matches && x !in r ensures r[i] in matches && Outranks(matches, r[i], x) {
      var k :| 0 <= k < |all| && all[k] == x;
      assert k >= |r|;
      assert r[i] == all[i];
      BeforeIsOutranks(matches, r[i], x);
    }
  }

  /**
   * `recommend_images(text, matcher, nlp, n)`. The language pipeline with its
   * phrase matcher is the parameter `matcher`: it takes the text of the kept
   * words and yields the pattern name of each match, in match order; the
   * stop-word list is the parameter `stop`.
   */
  method RecommendImages(text: string, stop: set<string>, matcher: string -> seq<string>, n: int)
    returns (r: seq<string>)
    ensures r == Recommend(matcher(MatcherInput(text, stop)), n)
  {
    var words := WithoutStopWords(Words(text), stop);
    var matches := matcher(Join(" ", words));
    var votes, order := Tally(matches);
    r := Head(MostCommon(order, votes), n);
  }

  // ---------------------------------------------------------------------------
  // Keyword files: `load_keywords`
  // ---------------------------------------------------------------------------

  /**
   * One image of a category: its name and its keyword phrases. The phrases are
   * kept as the strings handed to the language pipeline.
   */
  datatype Pattern = Pattern(name: string, keywords: seq<string>)

  const NotEnoughValues := "not enough values to unpack (expected 2, got 1)"
  const TooManyValues := "too many values to unpack (expected 2)"

  /** The error `open` raises for the keyword file of `category` when there is none. */
  function NoKeywordFile(category: string): string {
    "[Errno 2] No such file or directory: 'fffutils/data/" + category + "-keywords.txt'"
  }

  /** `(id, keywords) = line.split("\t")`, then the keywords lower-cased and split on commas. */
  function ParseLine(line: string): Result<Pattern> {
    var parts := Split(line, "\t");
    if |parts| < 2 then Err(NotEnoughValues)
    else if |parts| > 2 then Err(TooManyValues)
    else Ok(Pattern(parts[0], Split(Lower(RStrip(parts[1])), ",")))
  }

  /**
   * A line parses exactly when it holds one tab; it then splits there into the
   * name and the keyword text, neither holding a tab.
   */
  lemma ParseLineOk(line: string)
    ensures ParseLine(line) == Err(NotEnoughValues) <==> '\t' !in line
    ensures ParseLine(line) == Err(TooManyValues) <==> multiset(line)['\t'] > 1
    ensures ParseLine(line).Ok? <==> multiset(line)['\t'] == 1
    ensures ParseLine(line).Ok? ==>
      (exists k :: 0 <= k < |line| && line[k] == '\t'
        && line[..k] == ParseLine(line).value.name
        && ParseLine(line).value.keywords == Split(Lower(RStrip(line[k + 1..])), ","))
  {
    SplitCountChar(line, '\t');
    var parts := Split(line, "\t");
    if |parts| == 2 {
      JoinSplit(line, "\t");
      assert line == parts[0] + "\t" + parts[1];
      assert line[..|parts[0]|] == parts[0] && line[|parts[0]| + 1..] == parts[1];
    }
  }

  /** A name and a keyword text joined by a tab parse back into that name and its keywords. */
  lemma ParseLineRoundTrip(name: string, keywords: string)
    requires '\t' !in name && '\t' !in keywords
    ensures ParseLine(name + "\t" + keywords) == Ok(Pattern(name, Split(Lower(RStrip(keywords)), ",")))
  {
    SplitAtChar(name, '\t', keywords);
    SplitWithout(keywords, '\t');
  }

  /** The lines of one keyword file parsed in order; the first line that fails raises. */
  function ParseLines(lines: seq<string>): Result<seq<Pattern>> {
    if lines == [] then Ok([])
    else match ParseLines(lines[..|lines| - 1])
      case Err(e) => Err(e)
      case Ok(patterns) =>
        match ParseLine(lines[|lines| - 1])
        case Err(e) => Err(e)
        case Ok(p) => Ok(patterns + [p])
  }

  /**
   * All lines parse exactly when each does, giving one pattern per line in line
   * order; otherwise the error is that of the first line that fails.
   */
  lemma {:induction false} ParseLinesFacts(lines: seq<string>)
    ensures ParseLines(lines).Ok? <==> forall k :: 0 <= k < |lines| ==> ParseLine(lines[k]).Ok?
    ensures ParseLines(lines).Ok? ==>
      (|ParseLines(lines).value| == |lines|
        && forall k :: 0 <= k < |lines| ==> ParseLine(lines[k]) == Ok(ParseLines(lines).value[k]))
    ensures forall k ::
      (0 <= k < |lines| && ParseLine(lines[k]).Err? && forall j :: 0 <= j < k ==> ParseLine(lines[j]).Ok?)
      ==> ParseLines(lines) == Err(ParseLine(lines[k]).error)
  {
    if lines != [] {
      var init := lines[..|lines| - 1];
      ParseLinesFacts(init);
      forall k | 0 <= k < |init| ensures init[k] == lines[k] { }
    }
  }

  /** `k` copies of `patterns`, one after the other. */
  function Copies(patterns: seq<Pattern>, k: nat): seq<Pattern> {
    if k == 0 then [] else Copies(patterns, k - 1) + patterns
  }

  /** The patterns of `lines` appended to the entry of `category`, or the error of the first bad line. */
  function AddLines(dict: map<string, seq<Pattern>>, category: string, lines: seq<string>): Result<map<string, seq<Pattern>>>
    requires category in dict
  {
    match ParseLines(lines)
    case Err(e) => Err(e)
    case Ok(patterns) => Ok(dict[category := dict[category] + patterns])
  }

  /**
   * `load_keywords(categories, nlp)`, with the lines of each category's keyword
   * file given by `files` (a category absent from it has no file).
   */
  function Load(categories: seq<string>, files: map<string, seq<string>>): Result<map<string, seq<Pattern>>> {
    if categories == [] then Ok(map[])
    else match Load(categories[..|categories| - 1], files)
      case Err(e) => Err(e)
      case Ok(dict) =>
        var category := categories[|categories| - 1];
        var entries := if category in dict then dict[category] else [];
        if category !in files then Err(NoKeywordFile(category))
        else AddLines(dict[category := entries], category, files[category])
  }

  /** Loading succeeds exactly when every category has a keyword file whose lines all parse. */
  lemma {:induction false} LoadOk(categories: seq<string>, files: map<string, seq<string>>)
    ensures Load(categories, files).Ok? <==>
      forall c :: c in categories ==> c in files && ParseLines(files[c]).Ok?
  {
    if categories != [] {
      var init := categories[..|categories| - 1];
      assert categories == init + [categories[|categories| - 1]];
      LoadOk(init, files);
    }
  }

  /** Every category gets a key, even one whose keyword file has no lines. */
  lemma {:induction false} LoadKeys(categories: seq<string>, files: map<string, seq<string>>)
    ensures Load(categories, files).Ok? ==> Load(categories, files).value.Keys == set c | c in categories
  {
    if categories != [] {
      var init := categories[..|categories| - 1];
      assert categories == init + [categories[|categories| - 1]];
      LoadKeys(init, files);
    }
  }

  /**
   * Each category's entry holds the patterns of its file's lines in line order,
   * once per time the category is listed.
   */
  lemma {:induction false} LoadEntries(categories: seq<string>, files: map<string, seq<string>>, c: string)
    requires Load(categories, files).Ok? && c in Load(categories, files).value
    ensures c in files && ParseLines(files[c]).Ok?
    ensures Load(categories, files).value[c] == Copies(ParseLines(files[c]).value, multiset(categories)[c])
  {
    var init, last := categories[..|categories| - 1], categories[|categories| - 1];
    assert categories == init + [last];
    var dict := Load(init, files).value;
    if c in dict {
      LoadEntries(init, files, c);
    } else {
      LoadKeys(init, files);
      assert multiset(init)[c] == 0;
    }
  }

  /** Once loading the first categories has raised, loading them all raises the same error. */
  lemma {:induction false} LoadErrPersists(categories: seq<string>, files: map<string, seq<string>>, k: nat)
    requires k <= |categories| && Load(categories[..k], files).Err?
    ensures Load(categories, files) == Load(categories[..k], files)
  {
    if k < |categories| {
      assert categories[..|categories| - 1][..k] == categories[..k];
      LoadErrPersists(categories[..|categories| - 1], files, k);
    } else {
      assert categories[..k] == categories;
    }
  }

  /** Once the first lines of a file have failed to parse, the whole file fails with the same error. */
  lemma {:induction false} ParseLinesErrPersists(lines: seq<string>, k: nat)
    requires k <= |lines| && ParseLines(lines[..k]).Err?
    ensures ParseLines(lines) == ParseLines(lines[..k])
  {
    if k < |lines| {
      assert lines[..|lines| - 1][..k] == lines[..k];
      ParseLinesErrPersists(lines[..|lines| - 1], k);
    } else {
      assert lines[..k] == lines;
    }
  }

  /** The inner loop of `load_keywords`: each line of a category's file split and its pattern appended. */
  method AppendLines(dict: map<string, seq<Pattern>>, category: string, lines: seq<string>)
    returns (r: Result<map<string, seq<Pattern>>>)
    requires category in dict
    ensures r == AddLines(dict, category, lines)
  {
    var keywordDict := dict;
    ghost var patterns: seq<Pattern> := [];
    assert dict[category] + patterns == dict[category];
    assert lines[..0] == [];
    for j := 0 to |lines|
      invariant ParseLines(lines[..j]) == Ok(patterns)
      invariant keywordDict == dict[category := dict[category] + patterns]
    {
      assert lines[..j + 1][..j] == lines[..j];
      var parsed := ParseLine(lines[j]);
      if parsed.Err? {
        ParseLinesErrPersists(lines, j + 1);
        return Err(parsed.error);
      }
      keywordDict := keywordDict[category := keywordDict[category] + [parsed.value]];
      assert dict[category] + patterns + [parsed.value] == dict[category] + (patterns + [parsed.value]);
      patterns := patterns + [parsed.value];
    }
    assert lines[..|lines|] == lines;
    r := Ok(keywordDict);
  }

  /**
   * The loop of `load_keywords`: each category gets a key, then the lines of
   * its file are appended; the first failure raises.
   */
  method LoadKeywords(categories: seq<string>, files: map<string, seq<string>>)
    returns (r: Result<map<string, seq<Pattern>>>)
    ensures r == Load(categories, files)
  {
    var keywordDict: map<string, seq<Pattern>> := map[];
    for i := 0 to |categories|
      invariant Load(categories[..i], files) == Ok(keywordDict)
    {
      var category := categories[i];
      assert categories[..i + 1][..i] == categories[..i] && categories[..i + 1][i] == category;
      ghost var before := keywordDict;
      if category !in keywordDict {
        keywordDict := keywordDict[category := []];
      }
      assert keywordDict == before[category := if category in before then before[category] else []];
      if category !in files {
        LoadErrPersists(categories, files, i + 1);
        return Err(NoKeywordFile(category));
      }
      var added := AppendLines(keywordDict, category, files[category]);
      if added.Err? {
        LoadErrPersists(categories, files, i + 1);
        return added;
      }
      keywordDict := added.value;
    }
    assert categories[..|categories|] == categories;
    r := Ok(keywordDict);
  }
}
