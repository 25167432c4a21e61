/**
 * Model of fffutils/helper.py: splitting a card text into a claim and a fact
 * around a delimiter (by default `===`).
 *
 * The source splits with `re.split(delim, text)`; the model treats the delimiter
 * as a literal, non-empty string, which is what `re.split` does for `===` and for
 * any other pattern without regular-expression metacharacters.
 */
module Helper {
  import opened Wrappers
  import opened Text

  /** `[x.strip() for x in parts]`. */
  function StripEach(parts: seq<string>): seq<string> {
    seq(|parts|, k requires 0 <= k < |parts| => Strip(parts[k]))
  }

  /**
   * `split_claim_fact(text, delim)`: `("", whole text)` when the delimiter does
   * not occur, otherwise the first two pieces; both parts are stripped.
   */
  function SplitClaimFact(text: string, delim: string := "==="): (r: (string, string))
    requires |delim| > 0
    ensures Trimmed(r.0) && Trimmed(r.1)
    ensures !Contains(text, delim) ==> r.0 == ""
  {
    FindIsFirst(text, delim);
    var parts := StripEach(Split(text, delim));
    if |parts| == 1 then ("", parts[0]) else (parts[0], parts[1])
  }

  /** The result in terms of the first two pieces of the split. */
  lemma SplitClaimFactParts(text: string, delim: string)
    requires |delim| > 0
    ensures var p := Split(text, delim);
      SplitClaimFact(text, delim) == if |p| == 1 then ("", Strip(p[0])) else (Strip(p[0]), Strip(p[1]))
  {
  }

  /** The first piece of a split ends at the first occurrence of the delimiter, or is the whole text. */
  function UpToDelim(s: string, d: string): (r: string)
    ensures |r| <= |s| && r == s[..|r|]
  {
    match Find(s, d)
    case None => s
    case Some(i) => s[..i]
  }

  /** Without a delimiter the claim is empty and the fact is the whole text, stripped. */
  lemma SplitClaimFactNoDelim(text: string, delim: string)
    requires |delim| > 0 && !Contains(text, delim)
    ensures SplitClaimFact(text, delim) == ("", Strip(text))
  {
    FindIsFirst(text, delim);
    assert Find(text, delim).None?;
    assert Split(text, delim) == [text];
  }

  /**
   * With a delimiter the claim is the text before its first occurrence and the
   * fact the text between the first and the second occurrence (or the end):
   * anything after a second delimiter is dropped.
   */
  lemma SplitClaimFactSegments(text: string, delim: string)
    requires |delim| > 0 && Contains(text, delim)
    ensures Find(text, delim).Some?
    ensures var i := Find(text, delim).value;
      SplitClaimFact(text, delim) == (Strip(text[..i]), Strip(UpToDelim(text[i + |delim|..], delim)))
  {
    FindIsFirst(text, delim);
    var i := Find(text, delim).value;
    var rest := text[i + |delim|..];
    var p := Split(text, delim);
    assert p == [text[..i]] + Split(rest, delim);
    assert p[1] == Split(rest, delim)[0];
    assert Split(rest, delim)[0] == UpToDelim(rest, delim);
    SplitClaimFactParts(text, delim);
  }

  /** No occurrence of `d` can overlap a blank when `d` has no blank in it. */
  lemma NoOccurrenceOverBlank(s: string, d: string, j: nat, b: nat)
    requires ' ' !in d && b < |s| && s[b] == ' '
    requires j <= b < j + |d|
    ensures !OccursAt(s, d, j)
  {
  }

  /** In `claim + " " + delim + " " + fact` the first delimiter is the one put between them. */
  lemma FirstDelimInJoined(claim: string, fact: string, delim: string)
    requires |delim| > 0 && ' ' !in delim && !Contains(claim, delim)
    ensures Find(claim + " " + delim + " " + fact, delim) == Some(|claim| + 1)
  {
    var s := claim + " " + delim + " " + fact;
    var p := |claim| + 1;
    FindIsFirst(s, delim);
    assert s[p..p + |delim|] == delim;
    assert OccursAt(s, delim, p);
    forall j: nat | j < p ensures !OccursAt(s, delim, j) {
      if j + |delim| <= |claim| {
        assert s[j..j + |delim|] == claim[j..j + |delim|];
        assert !OccursAt(claim, delim, j);
      } else {
        NoOccurrenceOverBlank(s, delim, j, |claim|);
      }
    }
  }

  /** A blank followed by a text without the delimiter does not contain it either. */
  lemma NoDelimAfterBlank(fact: string, delim: string)
    requires |delim| > 0 && ' ' !in delim && !Contains(fact, delim)
    ensures !Contains(" " + fact, delim)
  {
    var rest := " " + fact;
    forall j: nat | j <= |rest| ensures !OccursAt(rest, delim, j) {
      if j == 0 {
        NoOccurrenceOverBlank(rest, delim, 0, 0);
      } else if j + |delim| <= |rest| {
        assert rest[j..j + |delim|] == fact[j - 1..j - 1 + |delim|];
        assert !OccursAt(fact, delim, j - 1);
      }
    }
  }

  /** A text whose first delimiter is followed by delimiter-free text splits into exactly two pieces. */
  lemma SplitTwo(s: string, delim: string, p: nat)
    requires |delim| > 0 && Find(s, delim) == Some(p)
    requires !Contains(s[p + |delim|..], delim)
    ensures Split(s, delim) == [s[..p], s[p + |delim|..]]
  {
    FindIsFirst(s[p + |delim|..], delim);
    assert Split(s[p + |delim|..], delim) == [s[p + |delim|..]];
  }

  /** `claim + " " + delim + " " + fact` splits into exactly two pieces around the inserted delimiter. */
  lemma SplitJoined(claim: string, fact: string, delim: string)
    requires |delim| > 0 && ' ' !in delim
    requires !Contains(claim, delim) && !Contains(fact, delim)
    ensures Split(claim + " " + delim + " " + fact, delim) == [claim + " ", " " + fact]
  {
    var s := claim + " " + delim + " " + fact;
    var p := |claim| + 1;
    FirstDelimInJoined(claim, fact, delim);
    assert s[p + |delim|..] == " " + fact;
    assert s[..p] == claim + " ";
    NoDelimAfterBlank(fact, delim);
    SplitTwo(s, delim, p);
  }

  /**
   * Round trip: joining a claim and a fact with " === " (or any delimiter without
   * blanks) and splitting again gives both back, provided neither contains the
   * delimiter and neither has surrounding whitespace.
   */
  lemma {:induction false} SplitClaimFactRoundTrip(claim: string, fact: string, delim: string)
    requires |delim| > 0 && ' ' !in delim
    requires !Contains(claim, delim) && !Contains(fact, delim)
    requires Trimmed(claim) && Trimmed(fact)
    ensures SplitClaimFact(claim + " " + delim + " " + fact, delim) == (claim, fact)
  {
    var s := claim + " " + delim + " " + fact;
    SplitJoined(claim, fact, delim);
    var p := Split(s, delim);
    assert |p| == 2;
    assert AllSpace(" ");
    assert Strip(p[0]) == claim by {
      assert p[0] == [] + claim + " ";
      StripPadded([], claim, " ");
    }
    assert Strip(p[1]) == fact by {
      assert p[1] == " " + fact + [];
      StripPadded(" ", fact, []);
    }
    SplitClaimFactParts(s, delim);
  }
}
