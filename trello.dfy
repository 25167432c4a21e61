/**
 * Model of fffutils/trello.py: the board's card data, the custom-field lookup with
 * a default, and the classification of a card's attachments into sources and
 * sharepics. Connecting to the board (`connect_board`) is not part of this model.
 */
module Trello {
  import opened Wrappers
  import opened Text

  /** An attachment of a card, as the board client hands it out. */
  datatype Attachment = Attachment(url: string, name: string)

  /** A custom field set on a card: its display name and its raw value. */
  datatype CustomField = CustomField(name: string, value: string)

  /** A custom-field definition of the board: display name and board identifier. */
  datatype FieldDef = FieldDef(name: string, id: string)

  /** A card of the board, with the parts the core reads. */
  datatype Card = Card(
    id: string,
    name: string,
    description: string,
    customFields: seq<CustomField>,
    attachments: seq<Attachment>)

  /** The two labels an attachment can receive. */
  datatype Kind = Source | Sharepic

  /** `{'type': ..., 'url': ...}`, one entry of `extract_attachments`' result. */
  datatype Labelled = Labelled(kind: Kind, url: string)

  /** Only attachments whose URL starts with `http` count as links. */
  predicate IsHttp(a: Attachment) {
    StartsWith(a.url, "http")
  }

  /**
   * `get_custom_field_value(name, fields, default)`: the stored value with its
   * trailing whitespace removed (leading whitespace is kept), or the default,
   * untouched, when the exact key is missing.
   */
  function GetCustomFieldValue(name: string, fields: map<string, string>, default: string := ""): (r: string)
    ensures name in fields ==> |r| <= |fields[name]| && r == fields[name][..|r|]
    ensures name in fields ==> AllSpace(fields[name][|r|..]) && (r == [] || !IsSpace(r[|r| - 1]))
    ensures name !in fields ==> r == default
  {
    if name in fields then RStrip(fields[name]) else default
  }

  /** The attachments whose URL starts with `http`, in their original order. */
  function HttpOnly(atts: seq<Attachment>): (r: seq<Attachment>)
    ensures |r| <= |atts|
    decreases |atts|
  {
    if atts == [] then []
    else
      var last := atts[|atts| - 1];
      HttpOnly(atts[..|atts| - 1]) + (if IsHttp(last) then [last] else [])
  }

  /** Filtering distributes over concatenation: the filter keeps the input order. */
  lemma {:induction false} HttpOnlyAppend(a: seq<Attachment>, b: seq<Attachment>)
    ensures HttpOnly(a + b) == HttpOnly(a) + HttpOnly(b)
    decreases |b|
  {
    if b == [] {
      assert a + b == a;
    } else {
      var b' := b[..|b| - 1];
      assert (a + b)[..|a + b| - 1] == a + b';
      HttpOnlyAppend(a, b');
    }
  }

  /** An attachment is kept exactly when it is in the input and its URL starts with `http`. */
  lemma {:induction false} HttpOnlyMembers(atts: seq<Attachment>, a: Attachment)
    ensures a in HttpOnly(atts) <==> a in atts && IsHttp(a)
    decreases |atts|
  {
    if atts != [] {
      var init := atts[..|atts| - 1];
      HttpOnlyMembers(init, a);
      assert atts == init + [atts[|atts| - 1]];
    }
  }

  /** The label `extract_attachments` gives to an attachment it keeps. */
  function Label(a: Attachment): Labelled {
    Labelled(if EndsWith(a.name, ".png") then Sharepic else Source, a.url)
  }

  /**
   * `extract_attachments(card)`: one entry per attachment whose URL starts with
   * `http`, in input order, with that URL, labelled `Sharepic` exactly when the
   * attachment's name ends in `.png` and `Source` otherwise.
   */
  method ExtractAttachments(attachments: seq<Attachment>) returns (r: seq<Labelled>)
    ensures |r| == |HttpOnly(attachments)| <= |attachments|
    ensures forall k :: 0 <= k < |r| ==> r[k].url == HttpOnly(attachments)[k].url
    ensures forall k :: 0 <= k < |r| ==> (r[k].kind == Sharepic <==> EndsWith(HttpOnly(attachments)[k].name, ".png"))
  {
    r := [];
    for i := 0 to |attachments|
      invariant |r| == |HttpOnly(attachments[..i])|
      invariant forall k :: 0 <= k < |r| ==> r[k] == Label(HttpOnly(attachments[..i])[k])
    {
      var a := attachments[i];
      assert attachments[..i + 1][..i] == attachments[..i];
      var kind: Option<Kind> := None;
      if StartsWith(a.url, "http") {
        if EndsWith(a.name, ".png") {
          kind := Some(Sharepic);
        } else {
          kind := Some(Source);
        }
      }
      if kind.Some? {
        r := r + [Labelled(kind.value, a.url)];
      }
    }
    assert attachments[..|attachments|] == attachments;
  }
}
