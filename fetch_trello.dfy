/**
 * Model of fffutils/fetch_trello.py: picking a card's source link, splitting a
 * card description into a title line and the remaining text, and the loop that
 * turns the cards of a list into `{slug, title, text, source}` entries. The board
 * client is abstracted: the loop receives the cards of the list, and `slugify` is
 * a parameter.
 */
module FetchTrello {
  import opened Wrappers
  import opened Text
  import opened Trello

  const NoSourceMessage := "No valid source URL found in attachments."

  /** What Python reports when the loop reads `source` before any card assigned it. */
  const UnboundSourceMessage := "local variable 'source' referenced before assignment"

  /** The URL of the last attachment whose URL starts with `http`, if there is one. */
  function LastHttpUrl(atts: seq<Attachment>): (r: Option<string>)
    ensures r.Some? ==> StartsWith(r.value, "http")
    decreases |atts|
  {
    if atts == [] then None
    else if IsHttp(atts[|atts| - 1]) then Some(atts[|atts| - 1].url)
    else LastHttpUrl(atts[..|atts| - 1])
  }

  /**
   * There is a link exactly when some attachment's URL starts with `http`, and
   * the link found is the URL of the last such attachment.
   */
  lemma {:induction false} LastHttpUrlIsLast(atts: seq<Attachment>)
    ensures LastHttpUrl(atts).Some? <==> exists i :: 0 <= i < |atts| && IsHttp(atts[i])
    ensures LastHttpUrl(atts).Some? ==> exists i :: (0 <= i < |atts| && IsHttp(atts[i])
      && LastHttpUrl(atts).value == atts[i].url && forall j :: i < j < |atts| ==> !IsHttp(atts[j]))
    decreases |atts|
  {
    if atts != [] && !IsHttp(atts[|atts| - 1]) {
      var init := atts[..|atts| - 1];
      LastHttpUrlIsLast(init);
      assert forall i :: 0 <= i < |init| ==> init[i] == atts[i];
    }
  }

  /**
   * `extract_source_url(card)`: the URL of the last attachment whose URL starts
   * with `http` (a `.png` sharepic is not excluded); it raises exactly when there
   * is no such attachment.
   */
  method ExtractSourceUrl(attachments: seq<Attachment>) returns (r: Result<string>)
    ensures r.Ok? <==> LastHttpUrl(attachments).Some?
    ensures r.Ok? ==> r.value == LastHttpUrl(attachments).value && StartsWith(r.value, "http")
    ensures r.Err? ==> r.error == NoSourceMessage
  {
    var source := "";
    for i := 0 to |attachments|
      invariant source == if LastHttpUrl(attachments[..i]).Some? then LastHttpUrl(attachments[..i]).value else ""
    {
      assert attachments[..i + 1][..i] == attachments[..i];
      if StartsWith(attachments[i].url, "http") {
        source := attachments[i].url;
      }
    }
    assert attachments[..|attachments|] == attachments;
    if source == "" {
      return Err(NoSourceMessage);
    }
    return Ok(source);
  }

  /** The chosen source is the URL of the last entry `extract_attachments` keeps, whatever its label. */
  lemma {:induction false} SourceIsLastLink(atts: seq<Attachment>)
    ensures LastHttpUrl(atts) == if HttpOnly(atts) == [] then None else Some(HttpOnly(atts)[|HttpOnly(atts)| - 1].url)
    decreases |atts|
  {
    if atts != [] && !IsHttp(atts[|atts| - 1]) {
      SourceIsLastLink(atts[..|atts| - 1]);
    }
  }

  /**
   * The title/text split of `fetch_trello`: `description.split('\n')[0]` and
   * `'\n'.join(description.split('\n')[1:])`.
   */
  function TitleText(description: string): (string, string) {
    var lines := Split(description, "\n");
    (lines[0], Join("\n", lines[1..]))
  }

  /** A one-line description is all title and no text. */
  lemma TitleTextSingleLine(description: string)
    requires '\n' !in description
    ensures TitleText(description) == (description, "")
  {
    ContainsChar(description, '\n');
    FindIsFirst(description, "\n");
  }

  /** Otherwise title, a newline and text give the description back, and the title is one line. */
  lemma TitleTextRoundTrip(description: string)
    requires '\n' in description
    ensures var (title, text) := TitleText(description);
      title + "\n" + text == description && '\n' !in title
  {
    ContainsChar(description, '\n');
    FindIsFirst(description, "\n");
    var i := Find(description, "\n").value;
    var rest := description[i + 1..];
    var lines := Split(description, "\n");
    assert lines == [description[..i]] + Split(rest, "\n");
    assert lines[1..] == Split(rest, "\n");
    JoinSplit(rest, "\n");
    assert description == description[..i] + "\n" + rest;
    PrefixBeforeFind(description, "\n");
    ContainsChar(lines[0], '\n');
  }

  /**
   * The value of the loop variable `source` after the first `n` cards: the source
   * of the latest of them that had one. A card without a source leaves it
   * unchanged, because the `next` in the exception handler is a no-op.
   */
  function Carried(cards: seq<Card>, n: nat): Option<string>
    requires n <= |cards|
    decreases n
  {
    if n == 0 then None
    else
      match LastHttpUrl(cards[n - 1].attachments)
      case Some(url) => Some(url)
      case None => Carried(cards, n - 1)
  }

  /** A carried source is the source of some earlier card, and every card after that one had none. */
  lemma {:induction false} CarriedIsLatestSource(cards: seq<Card>, n: nat)
    requires n <= |cards| && Carried(cards, n).Some?
    ensures exists i :: (0 <= i < n && LastHttpUrl(cards[i].attachments) == Carried(cards, n)
      && forall j :: i < j < n ==> LastHttpUrl(cards[j].attachments).None?)
    decreases n
  {
    if LastHttpUrl(cards[n - 1].attachments).None? {
      CarriedIsLatestSource(cards, n - 1);
    }
  }

  /** One entry of the result list. */
  datatype Entry = Entry(slug: string, title: string, text: string, source: string)

  /** `e` is the entry the loop builds for the `k`-th card. */
  predicate IsEntryFor(cards: seq<Card>, slugify: string -> string, k: nat, e: Entry)
    requires k < |cards|
  {
    (e.title, e.text) == TitleText(cards[k].description) && e.slug == slugify(e.title)
    && Some(e.source) == Carried(cards, k + 1)
  }

  /**
   * `fetch_trello(args, log)` over the cards of the input list: one entry per
   * card, in list order, with `slug == slugify(title)`. A card without a source
   * reuses the previous card's source; when the first card has none, reading the
   * unbound `source` raises.
   */
  method FetchTrello(cards: seq<Card>, slugify: string -> string) returns (r: Result<seq<Entry>>)
    ensures r.Err? <==> |cards| > 0 && LastHttpUrl(cards[0].attachments).None?
    ensures r.Ok? ==> |r.value| == |cards|
    ensures r.Ok? ==> forall i :: 0 <= i < |cards| ==> IsEntryFor(cards, slugify, i, r.value[i])
  {
    var results: seq<Entry> := [];
    var source: Option<string> := None;
    for i := 0 to |cards|
      invariant source == Carried(cards, i)
      invariant i > 0 ==> LastHttpUrl(cards[0].attachments).Some? && source.Some?
      invariant |results| == i
      invariant forall k :: 0 <= k < i ==> IsEntryFor(cards, slugify, k, results[k])
    {
      var card := cards[i];
      var (title, text) := TitleText(card.description);
      var extracted := ExtractSourceUrl(card.attachments);
      if extracted.Ok? {
        source := Some(extracted.value);
      }
      assert source == Carried(cards, i + 1);
      if source.None? {
        return Err(UnboundSourceMessage);
      }
      results := results + [Entry(slugify(title), title, text, source.value)];
    }
    return Ok(results);
  }
}
