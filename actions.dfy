/**
 * Model of `fetch_trello` in fffutils/actions.py: for every card of the input
 * list, build the CMS record from the card's name, description, source link and
 * custom fields; optionally push it, write the identifier the CMS returns back
 * onto the card, and move the card to another list.
 *
 * The board is abstracted: the loop receives the cards of the input list and
 * the board's custom-field definitions, `slugify` is a parameter, and the CMS is
 * the function `cms` from request to response. What the loop does to the world
 * (requests sent, card fields set, cards moved) is returned as a trace of
 * effects. An exception that escapes the loop is an `Abort`: the effects that
 * happened before it stay, and no result list is returned.
 */
module Actions {
  import opened Wrappers
  import opened Text
  import opened Trello
  // named apart from the method `FetchTrello` below, which would otherwise clash with the module name
  import opened Sources = FetchTrello
  import opened Strapi

  /** The command-line switches the loop reads, the token from the environment, and the board's field definitions. */
  datatype Setup = Setup(push: bool, moveTo: string, token: string, defs: seq<FieldDef>)

  /** Something the loop does outside itself, tagged with the position of the card it was doing it for. */
  datatype Effect =
    | Sent(card: nat, request: Request)
    | SetField(card: nat, value: Value, field: FieldDef)
    | Moved(card: nat, list: string)

  /** The exceptions that end the loop. */
  datatype Abort =
    | SourceUnbound        // the first card has no source and `source` was never assigned
    | TokenMissing         // `push` exits without a CMS token
    | ResponseUndecodable  // the handler of a failed `json.loads` indexes the response object
    | ResponseWithoutId(response: Value)  // the handler of a failed write-back reads `response['_id']` again

  /**
   * `dict(zip([name.lower() for ...], [value for ...]))`: each lower-cased name
   * maps to the value of the last entry with that name.
   */
  function ByLowerName<T>(entries: seq<(string, T)>): map<string, T>
    decreases |entries|
  {
    if entries == [] then map[]
    else
      var last := entries[|entries| - 1];
      ByLowerName(entries[..|entries| - 1])[Lower(last.0) := last.1]
  }

  /** A key is present exactly when some entry's name lower-cases to it. */
  lemma {:induction false} ByLowerNameKeys<T>(entries: seq<(string, T)>, key: string)
    ensures key in ByLowerName(entries) <==> exists j :: 0 <= j < |entries| && Lower(entries[j].0) == key
    decreases |entries|
  {
    if entries != [] {
      var init := entries[..|entries| - 1];
      ByLowerNameKeys(init, key);
      if key in ByLowerName(init) {
        var j :| 0 <= j < |init| && Lower(init[j].0) == key;
        assert entries[j] == init[j];
      }
      if exists j :: 0 <= j < |entries| && Lower(entries[j].0) == key {
        var j :| 0 <= j < |entries| && Lower(entries[j].0) == key;
        if j < |init| {
          assert init[j] == entries[j];
        }
      }
    }
  }

  /** When names collide after lower-casing, the later entry wins. */
  lemma {:induction false} ByLowerNameLastWins<T>(entries: seq<(string, T)>, j: nat)
    requires j < |entries|
    requires forall l :: j < l < |entries| ==> Lower(entries[l].0) != Lower(entries[j].0)
    ensures Lower(entries[j].0) in ByLowerName(entries)
    ensures ByLowerName(entries)[Lower(entries[j].0)] == entries[j].1
    decreases |entries|
  {
    if j < |entries| - 1 {
      var init := entries[..|entries| - 1];
      assert init[j] == entries[j];
      ByLowerNameLastWins(init, j);
    }
  }

  /** The name and value of each custom field of a card. */
  function FieldPairs(fields: seq<CustomField>): (r: seq<(string, string)>)
    ensures |r| == |fields|
  {
    if fields == [] then [] else [(fields[0].name, fields[0].value)] + FieldPairs(fields[1..])
  }

  lemma {:induction false} FieldPairsAt(fields: seq<CustomField>)
    ensures forall k :: 0 <= k < |fields| ==> FieldPairs(fields)[k] == (fields[k].name, fields[k].value)
  {
    if fields != [] {
      FieldPairsAt(fields[1..]);
    }
  }

  /** The card's custom fields keyed by lower-cased name. */
  function FieldMap(fields: seq<CustomField>): map<string, string> {
    ByLowerName(FieldPairs(fields))
  }

  /**
   * The card's field map has a key exactly for each lower-cased field name, and
   * a field no later field shares a lower-cased name with gives its value.
   */
  lemma FieldMapEntries(fields: seq<CustomField>, key: string, j: nat)
    ensures key in FieldMap(fields) <==> exists l :: 0 <= l < |fields| && Lower(fields[l].name) == key
    ensures j < |fields| && (forall l :: j < l < |fields| ==> Lower(fields[l].name) != Lower(fields[j].name)) ==>
      Lower(fields[j].name) in FieldMap(fields) && FieldMap(fields)[Lower(fields[j].name)] == fields[j].value
  {
    var pairs := FieldPairs(fields);
    FieldPairsAt(fields);
    ByLowerNameKeys(pairs, key);
    if exists l :: 0 <= l < |fields| && Lower(fields[l].name) == key {
      var l :| 0 <= l < |fields| && Lower(fields[l].name) == key;
      assert Lower(pairs[l].0) == key;
    }
    if j < |fields| && (forall l :: j < l < |fields| ==> Lower(fields[l].name) != Lower(fields[j].name)) {
      assert forall l :: j < l < |pairs| ==> Lower(pairs[l].0) != Lower(pairs[j].0);
      ByLowerNameLastWins(pairs, j);
    }
  }

  /** The name of each field definition of the board, with the definition. */
  function DefPairs(defs: seq<FieldDef>): (r: seq<(string, FieldDef)>)
    ensures |r| == |defs|
  {
    if defs == [] then [] else [(defs[0].name, defs[0])] + DefPairs(defs[1..])
  }

  lemma {:induction false} DefPairsAt(defs: seq<FieldDef>)
    ensures forall k :: 0 <= k < |defs| ==> DefPairs(defs)[k] == (defs[k].name, defs[k])
  {
    if defs != [] {
      DefPairsAt(defs[1..]);
    }
  }

  /** The board's field definitions keyed by lower-cased name. */
  function DefMap(defs: seq<FieldDef>): map<string, FieldDef> {
    ByLowerName(DefPairs(defs))
  }

  /**
   * The board's definition map has a key exactly for each lower-cased
   * definition name, and a definition no later one shares a lower-cased name
   * with is the one found under it.
   */
  lemma DefMapEntries(defs: seq<FieldDef>, key: string, j: nat)
    ensures key in DefMap(defs) <==> exists l :: 0 <= l < |defs| && Lower(defs[l].name) == key
    ensures j < |defs| && (forall l :: j < l < |defs| ==> Lower(defs[l].name) != Lower(defs[j].name)) ==>
      Lower(defs[j].name) in DefMap(defs) && DefMap(defs)[Lower(defs[j].name)] == defs[j]
  {
    var pairs := DefPairs(defs);
    DefPairsAt(defs);
    ByLowerNameKeys(pairs, key);
    if exists l :: 0 <= l < |defs| && Lower(defs[l].name) == key {
      var l :| 0 <= l < |defs| && Lower(defs[l].name) == key;
      assert Lower(pairs[l].0) == key;
    }
    if j < |defs| && (forall l :: j < l < |defs| ==> Lower(defs[l].name) != Lower(defs[j].name)) {
      assert forall l :: j < l < |pairs| ==> Lower(pairs[l].0) != Lower(pairs[j].0);
      ByLowerNameLastWins(pairs, j);
    }
  }

  /** Where the value of a record key comes from. */
  datatype Origin =
    | SlugOfName                              // `slugify(card.name)`
    | Name                                    // `card.name`
    | Description                             // `card.desc`
    | SourceUrl                               // the source link
    | Field(name: string, default: string)    // `get_custom_field_value(name, fields, default)`

  /** One key of the record and where its value comes from. */
  datatype Column = Column(key: string, origin: Origin)

  /** The keys of the record `d`, in the order the loop lists them. */
  const Layout := [
    Column("_id", Field("id", "")),
    Column("slug", SlugOfName),
    Column("headline", Name),
    Column("snack", Description),
    Column("url", SourceUrl),
    Column("date", Field("datum", "?")),
    Column("category", Field("kategorie", "None")),
    Column("medium", Field("medium", "")),
    Column("image_url", Field("bild", ""))]

  /** The text a column takes for a card whose source is `source` and whose fields (by lower-cased name) are `fields`. */
  function ColumnText(origin: Origin, card: Card, source: string, slugify: string -> string,
                      fields: map<string, string>): string
  {
    match origin
    case SlugOfName => slugify(card.name)
    case Name => card.name
    case Description => card.description
    case SourceUrl => source
    case Field(name, default) => GetCustomFieldValue(name, fields, default)
  }

  /** The entries for the columns `cols`. */
  function Fill(cols: seq<Column>, card: Card, source: string, slugify: string -> string,
                fields: map<string, string>): map<string, Value>
  {
    if cols == [] then map[]
    else
      var c := cols[|cols| - 1];
      Fill(cols[..|cols| - 1], card, source, slugify, fields)[c.key := Str(ColumnText(c.origin, card, source, slugify, fields))]
  }

  /** The record `d` the loop builds for a card whose source is `source`; its `_id` is text. */
  function Record(card: Card, source: string, slugify: string -> string): (r: map<string, Value>)
    ensures IdKey in r && r[IdKey].Str?
  {
    LayoutWritten(card, source, slugify, FieldMap(card.customFields));
    Fill(Layout, card, source, slugify, FieldMap(card.customFields))
  }

  /** The layout filled in, written out key by key. */
  lemma LayoutWritten(card: Card, source: string, slugify: string -> string, fields: map<string, string>)
    ensures Fill(Layout, card, source, slugify, fields) == map[
      "_id" := Str(GetCustomFieldValue("id", fields, "")),
      "slug" := Str(slugify(card.name)),
      "headline" := Str(card.name),
      "snack" := Str(card.description),
      "url" := Str(source),
      "date" := Str(GetCustomFieldValue("datum", fields, "?")),
      "category" := Str(GetCustomFieldValue("kategorie", fields, "None")),
      "medium" := Str(GetCustomFieldValue("medium", fields, "")),
      "image_url" := Str(GetCustomFieldValue("bild", fields, ""))]
  {
    LayoutFixedPart(card, source, slugify, fields);
    var f := (k: nat) requires k <= |Layout| => Fill(Layout[..k], card, source, slugify, fields);
    FillStep(Layout, 6, card, source, slugify, fields);
    assert f(6) == f(5)["date" := Str(GetCustomFieldValue("datum", fields, "?"))];
    FillStep(Layout, 7, card, source, slugify, fields);
    assert f(7) == f(6)["category" := Str(GetCustomFieldValue("kategorie", fields, "None"))];
    FillStep(Layout, 8, card, source, slugify, fields);
    assert f(8) == f(7)["medium" := Str(GetCustomFieldValue("medium", fields, ""))];
    FillStep(Layout, 9, card, source, slugify, fields);
    assert f(9) == f(8)["image_url" := Str(GetCustomFieldValue("bild", fields, ""))];
    assert Layout[..9] == Layout;
  }

  /** The first five columns of the layout filled in. */
  lemma LayoutFixedPart(card: Card, source: string, slugify: string -> string, fields: map<string, string>)
    ensures Fill(Layout[..5], card, source, slugify, fields) == map[
      "_id" := Str(GetCustomFieldValue("id", fields, "")),
      "slug" := Str(slugify(card.name)),
      "headline" := Str(card.name),
      "snack" := Str(card.description),
      "url" := Str(source)]
  {
    LayoutHead(card, source, slugify, fields);
    FillStep(Layout, 4, card, source, slugify, fields);
    assert Fill(Layout[..4], card, source, slugify, fields)
      == Fill(Layout[..3], card, source, slugify, fields)["snack" := Str(card.description)];
    FillStep(Layout, 5, card, source, slugify, fields);
    assert Fill(Layout[..5], card, source, slugify, fields)
      == Fill(Layout[..4], card, source, slugify, fields)["url" := Str(source)];
  }

  /** The first three columns of the layout filled in. */
  lemma LayoutHead(card: Card, source: string, slugify: string -> string, fields: map<string, string>)
    ensures Fill(Layout[..3], card, source, slugify, fields) == map[
      "_id" := Str(GetCustomFieldValue("id", fields, "")),
      "slug" := Str(slugify(card.name)),
      "headline" := Str(card.name)]
  {
    var f := (k: nat) requires k <= |Layout| => Fill(Layout[..k], card, source, slugify, fields);
    assert Layout[..0] == [];
    FillStep(Layout, 1, card, source, slugify, fields);
    assert f(1) == map["_id" := Str(GetCustomFieldValue("id", fields, ""))];
    FillStep(Layout, 2, card, source, slugify, fields);
    assert f(2) == f(1)["slug" := Str(slugify(card.name))];
    FillStep(Layout, 3, card, source, slugify, fields);
    assert f(3) == f(2)["headline" := Str(card.name)];
  }

  /** Every value of a filled-in record is text. */
  lemma {:induction false} FillText(cols: seq<Column>, card: Card, source: string, slugify: string -> string,
                                    fields: map<string, string>)
    ensures forall k :: k in Fill(cols, card, source, slugify, fields) ==> Fill(cols, card, source, slugify, fields)[k].Str?
  {
    if cols != [] {
      FillText(cols[..|cols| - 1], card, source, slugify, fields);
    }
  }

  /** Filling the first `k` columns is filling the first `k - 1` and then setting column `k - 1`. */
  lemma FillStep(cols: seq<Column>, k: nat, card: Card, source: string, slugify: string -> string,
                 fields: map<string, string>)
    requires 0 < k <= |cols|
    ensures Fill(cols[..k], card, source, slugify, fields)
      == Fill(cols[..k - 1], card, source, slugify, fields)[cols[k - 1].key := Str(ColumnText(cols[k - 1].origin, card, source, slugify, fields))]
  {
    assert cols[..k][..k - 1] == cols[..k - 1];
  }

  /** The keys of every record. */
  const RecordKeys := {"_id", "slug", "headline", "snack", "url", "date", "category", "medium", "image_url"}

  /**
   * A record has exactly the nine keys, all of them text; `headline` is the card
   * name and `snack` the whole description (not split into title and text),
   * `slug` is the slug of the name and `url` the source.
   */
  lemma RecordShape(card: Card, source: string, slugify: string -> string)
    ensures var rec := Record(card, source, slugify);
      && rec.Keys == RecordKeys
      && rec["headline"] == Str(card.name) && rec["snack"] == Str(card.description)
      && rec["slug"] == Str(slugify(card.name)) && rec["url"] == Str(source)
      && (forall k :: k in rec ==> rec[k].Str?)
  {
    LayoutWritten(card, source, slugify, FieldMap(card.customFields));
    FillText(Layout, card, source, slugify, FieldMap(card.customFields));
  }

  /**
   * The custom-field keys fall back to their defaults `""`, `"?"`, `"None"`,
   * `""` and `""` when the card has no field of that name in any letter case; a
   * present field's value is kept up to its trailing whitespace.
   */
  lemma RecordDefaults(card: Card, source: string, slugify: string -> string)
    ensures var fields := FieldMap(card.customFields); var rec := Record(card, source, slugify);
      && ("id" !in fields ==> rec["_id"] == Str(""))
      && ("datum" !in fields ==> "date" in rec && rec["date"] == Str("?"))
      && ("kategorie" !in fields ==> "category" in rec && rec["category"] == Str("None"))
      && ("medium" !in fields ==> "medium" in rec && rec["medium"] == Str(""))
      && ("bild" !in fields ==> "image_url" in rec && rec["image_url"] == Str(""))
      && ("bild" in fields ==> "image_url" in rec && rec["image_url"] == Str(RStrip(fields["bild"])))
  {
    LayoutWritten(card, source, slugify, FieldMap(card.customFields));
  }

  /** The request `push` sends for a card's record: never an error, since `_id` is a string. */
  function RecordRequest(rec: map<string, Value>, token: string): (r: Request)
    requires IdKey in rec && rec[IdKey].Str?
    ensures FactRequest(rec, token) == Ok(r)
  {
    FactRequest(rec, token).value
  }

  /** What handling one card gives: its record (as it is appended), its effects, and an abort if one happened. */
  datatype Outcome = Outcome(record: map<string, Value>, effects: seq<Effect>, abort: Option<Abort>)

  /**
   * Handling the record `rec` built for the card at position `i`: without
   * `push` the record is kept as built; with it, the record is pushed (losing
   * `_id`), the identifier in the response is written back to the board's `id`
   * field when the board has one, and the card is moved when a target list is
   * given and the response status is 200.
   */
  function Step(setup: Setup, rec: map<string, Value>, i: nat, cms: Request -> Response): Outcome
    requires IdKey in rec && rec[IdKey].Str?
  {
    if !setup.push then Outcome(rec, [], None)
    else if setup.token == "" then Outcome(rec, [], Some(TokenMissing))
    else
      var req := RecordRequest(rec, setup.token);
      var pushed := rec - {IdKey};
      var res := cms(req);
      match res.payload
      case NoData => Outcome(pushed, [Sent(i, req)], Some(ResponseUndecodable))
      case Malformed => Outcome(pushed, [Sent(i, req)], Some(ResponseUndecodable))
      case Json(v) =>
        if !(v.Obj? && IdKey in v.members) then Outcome(pushed, [Sent(i, req)], Some(ResponseWithoutId(v)))
        else
          var defs := DefMap(setup.defs);
          var writeBack := if "id" in defs then [SetField(i, v.members[IdKey], defs["id"])] else [];
          var move := if setup.moveTo != "" && res.status == 200 then [Moved(i, setup.moveTo)] else [];
          Outcome(pushed, [Sent(i, req)] + writeBack + move, None)
  }

  /** The progress of the loop after some cards: records appended, effects so far, and the abort that ended it. */
  datatype Progress = Progress(records: seq<map<string, Value>>, effects: seq<Effect>, abort: Option<Abort>)

  /** The loop over the first `n` cards, stopping at the first abort. */
  function Run(setup: Setup, cards: seq<Card>, n: nat, slugify: string -> string, cms: Request -> Response): Progress
    requires n <= |cards|
    decreases n, 1
  {
    if n == 0 then Progress([], [], None) else Next(setup, cards, n - 1, slugify, cms)
  }

  /** The loop up to and including the card at position `i`. */
  function Next(setup: Setup, cards: seq<Card>, i: nat, slugify: string -> string, cms: Request -> Response): Progress
    requires i < |cards|
    decreases i + 1, 0
  {
    var p := Run(setup, cards, i, slugify, cms);
    if p.abort.Some? then p
    else match Carried(cards, i + 1)
      case None => Progress(p.records, p.effects, Some(SourceUnbound))
      case Some(source) =>
        var o := Step(setup, Record(cards[i], source, slugify), i, cms);
        Progress(if o.abort.None? then p.records + [o.record] else p.records, p.effects + o.effects, o.abort)
  }

  /** Once the loop has aborted, later cards change nothing. */
  lemma {:induction false} RunStops(setup: Setup, cards: seq<Card>, i: nat, n: nat, slugify: string -> string, cms: Request -> Response)
    requires i <= n <= |cards| && Run(setup, cards, i, slugify, cms).abort.Some?
    ensures Run(setup, cards, n, slugify, cms) == Run(setup, cards, i, slugify, cms)
    decreases n
  {
    if n > i {
      RunStops(setup, cards, i, n - 1, slugify, cms);
    }
  }

  /** A run that does not abort appends one record per card. */
  lemma {:induction false} RunRecordCount(setup: Setup, cards: seq<Card>, n: nat, slugify: string -> string, cms: Request -> Response)
    requires n <= |cards|
    ensures |Run(setup, cards, n, slugify, cms).records| <= n
    ensures Run(setup, cards, n, slugify, cms).abort.None? ==> |Run(setup, cards, n, slugify, cms).records| == n
    decreases n
  {
    if n > 0 {
      RunRecordCount(setup, cards, n - 1, slugify, cms);
    }
  }

  /**
   * Without `push` nothing leaves the loop: no request, no write-back, no move;
   * every record keeps its `_id`; and the run aborts exactly when the first card
   * has no source.
   */
  lemma {:induction false} RunWithoutPush(setup: Setup, cards: seq<Card>, n: nat, slugify: string -> string, cms: Request -> Response)
    requires n <= |cards| && !setup.push
    ensures Run(setup, cards, n, slugify, cms).effects == []
    ensures forall k :: 0 <= k < |Run(setup, cards, n, slugify, cms).records| ==> IdKey in Run(setup, cards, n, slugify, cms).records[k]
    ensures Run(setup, cards, n, slugify, cms).abort.Some? <==> n > 0 && LastHttpUrl(cards[0].attachments).None?
    decreases n
  {
    if n > 0 {
      RunWithoutPush(setup, cards, n - 1, slugify, cms);
      var p := Run(setup, cards, n - 1, slugify, cms);
      if LastHttpUrl(cards[0].attachments).Some? {
        CarriedFromFirst(cards, n);
        var rec := Record(cards[n - 1], Carried(cards, n).value, slugify);
        assert Step(setup, rec, n - 1, cms) == Outcome(rec, [], None);
        assert Run(setup, cards, n, slugify, cms) == Progress(p.records + [rec], p.effects, None);
      } else if n == 1 {
        assert Carried(cards, 1).None?;
      }
    }
  }

  /** The record the loop appends for a built record `rec`: `push` pops `_id` from it. */
  function Kept(push: bool, rec: map<string, Value>): map<string, Value> {
    if push then rec - {IdKey} else rec
  }

  /** A step that goes on appends the built record, without `_id` under `push`. */
  lemma StepKeeps(setup: Setup, rec: map<string, Value>, i: nat, cms: Request -> Response)
    requires IdKey in rec && rec[IdKey].Str?
    ensures Step(setup, rec, i, cms).abort.None? ==> Step(setup, rec, i, cms).record == Kept(setup.push, rec)
  {
  }

  /** `rec` is what the loop appends for the card at position `k`: its record, built with the source carried to it. */
  predicate KeptFor(setup: Setup, cards: seq<Card>, slugify: string -> string, k: nat, rec: map<string, Value>)
    requires k < |cards|
  {
    Carried(cards, k + 1).Some? && rec == Kept(setup.push, Record(cards[k], Carried(cards, k + 1).value, slugify))
  }

  /**
   * A run that does not abort keeps, for each card, the record built from it
   * and the source carried to it; with `push` that record has lost its `_id`.
   */
  lemma {:induction false} RunRecordsAre(setup: Setup, cards: seq<Card>, n: nat, slugify: string -> string, cms: Request -> Response)
    requires n <= |cards| && Run(setup, cards, n, slugify, cms).abort.None?
    ensures |Run(setup, cards, n, slugify, cms).records| == n
    ensures forall k :: 0 <= k < n ==> KeptFor(setup, cards, slugify, k, Run(setup, cards, n, slugify, cms).records[k])
    decreases n
  {
    if n > 0 {
      RunAppends(setup, cards, n, slugify, cms);
      RunRecordsAre(setup, cards, n - 1, slugify, cms);
      KeptForAppend(setup, cards, slugify, Run(setup, cards, n - 1, slugify, cms).records,
        Kept(setup.push, Record(cards[n - 1], Carried(cards, n).value, slugify)));
    }
  }

  /** Appending the record kept for the next card to the records kept for the cards before it. */
  lemma KeptForAppend(setup: Setup, cards: seq<Card>, slugify: string -> string, before: seq<map<string, Value>>, rec: map<string, Value>)
    requires |before| < |cards| && KeptFor(setup, cards, slugify, |before|, rec)
    requires forall k :: 0 <= k < |before| ==> KeptFor(setup, cards, slugify, k, before[k])
    ensures forall k :: 0 <= k < |before| + 1 ==> KeptFor(setup, cards, slugify, k, (before + [rec])[k])
  {
    forall k | 0 <= k < |before| + 1
      ensures KeptFor(setup, cards, slugify, k, (before + [rec])[k])
    {
      if k < |before| {
        assert (before + [rec])[k] == before[k];
      }
    }
  }

  /** The step of a run that does not abort: the run before it did not abort, and it appends the card's kept record. */
  lemma RunAppends(setup: Setup, cards: seq<Card>, n: nat, slugify: string -> string, cms: Request -> Response)
    requires 0 < n <= |cards| && Run(setup, cards, n, slugify, cms).abort.None?
    ensures Run(setup, cards, n - 1, slugify, cms).abort.None? && Carried(cards, n).Some?
    ensures Run(setup, cards, n, slugify, cms).records
      == Run(setup, cards, n - 1, slugify, cms).records + [Kept(setup.push, Record(cards[n - 1], Carried(cards, n).value, slugify))]
  {
    var rec := Record(cards[n - 1], Carried(cards, n).value, slugify);
    StepKeeps(setup, rec, n - 1, cms);
  }

  /** Once the first card has a source, every later card has one too. */
  lemma {:induction false} CarriedFromFirst(cards: seq<Card>, n: nat)
    requires 0 < n <= |cards| && LastHttpUrl(cards[0].attachments).Some?
    ensures Carried(cards, n).Some?
    decreases n
  {
    if n > 1 && LastHttpUrl(cards[n - 1].attachments).None? {
      CarriedFromFirst(cards, n - 1);
    }
  }

  /** With `push`, every record in the result has lost its `_id`, because `push` pops it from the same dict. */
  lemma {:induction false} RunWithPushDropsId(setup: Setup, cards: seq<Card>, n: nat, slugify: string -> string, cms: Request -> Response)
    requires n <= |cards| && setup.push
    ensures forall k :: 0 <= k < |Run(setup, cards, n, slugify, cms).records| ==> IdKey !in Run(setup, cards, n, slugify, cms).records[k]
    decreases n
  {
    if n > 0 {
      RunWithPushDropsId(setup, cards, n - 1, slugify, cms);
      var p := Run(setup, cards, n - 1, slugify, cms);
      if p.abort.None? && Carried(cards, n).Some? {
        var rec := Record(cards[n - 1], Carried(cards, n).value, slugify);
        var o := Step(setup, rec, n - 1, cms);
        StepPushedRecord(setup, rec, n - 1, cms);
        assert Run(setup, cards, n, slugify, cms).records == if o.abort.None? then p.records + [o.record] else p.records;
      } else {
        assert Run(setup, cards, n, slugify, cms).records == p.records;
      }
    }
  }

  /** With `push`, the record a step that goes on keeps is the pushed one, without `_id`. */
  lemma StepPushedRecord(setup: Setup, rec: map<string, Value>, i: nat, cms: Request -> Response)
    requires IdKey in rec && rec[IdKey].Str? && setup.push
    ensures Step(setup, rec, i, cms).abort.None? ==> IdKey !in Step(setup, rec, i, cms).record
  {
  }

  /**
   * A card is moved exactly when `push` is set, the token is present, the target
   * list is not empty, the response decodes to an object with an `_id`, and its
   * status is 200; it is moved to the target list.
   */
  lemma StepMoves(setup: Setup, rec: map<string, Value>, i: nat, cms: Request -> Response, list: string)
    requires IdKey in rec && rec[IdKey].Str?
    ensures var o := Step(setup, rec, i, cms);
      Moved(i, list) in o.effects <==>
        && setup.push && setup.token != "" && setup.moveTo != "" && list == setup.moveTo
        && var res := cms(RecordRequest(rec, setup.token));
          res.status == 200 && res.payload.Json? && res.payload.value.Obj? && IdKey in res.payload.value.members
  {
  }

  /**
   * The write-back: when the response has an `_id` and the board defines a
   * field named `id` (in any letter case), that value is set on that field;
   * without such a field nothing is set and the loop goes on; a response without
   * `_id` ends the loop.
   */
  lemma StepWritesBack(setup: Setup, rec: map<string, Value>, i: nat, cms: Request -> Response)
    requires IdKey in rec && rec[IdKey].Str? && setup.push && setup.token != ""
    ensures var o := Step(setup, rec, i, cms);
      var req := RecordRequest(rec, setup.token);
      var res := cms(req);
      && o.effects[0] == Sent(i, req)
      && (res.payload.Json? && res.payload.value.Obj? && IdKey in res.payload.value.members ==>
          && o.abort.None?
          && ("id" in DefMap(setup.defs) ==> o.effects[1] == SetField(i, res.payload.value.members[IdKey], DefMap(setup.defs)["id"]))
          && ("id" !in DefMap(setup.defs) ==> forall e :: e in o.effects ==> !e.SetField?))
      && (res.payload.Json? && !(res.payload.value.Obj? && IdKey in res.payload.value.members) ==> o.abort == Some(ResponseWithoutId(res.payload.value)))
      && (!res.payload.Json? ==> o.abort == Some(ResponseUndecodable))
  {
  }

  /** The request sent for a card is an update of its CMS entry exactly when the card's `id` field is set to non-blank text. */
  lemma RecordRequestRoute(card: Card, source: string, slugify: string -> string, token: string)
    ensures var rec := Record(card, source, slugify); var req := RecordRequest(rec, token);
      var id := GetCustomFieldValue("id", FieldMap(card.customFields), "");
      && (req.verb == Put <==> id != "")
      && (req.verb == Put ==> req.url == FactsUrl + "/" + id)
      && req.body == Some(rec - {IdKey})
  {
    LayoutWritten(card, source, slugify, FieldMap(card.customFields));
    var rec := Record(card, source, slugify);
    FactRequestShape(rec, token);
  }

  /** The `TypeError` of indexing the HTTP response object in the handler of a failed `json.loads`. */
  const UndecodableMessage := "'HTTPResponse' object is not subscriptable"

  /**
   * The message of the exception `response['_id']` raises for a decoded
   * response `v` without that key: a `KeyError` naming the key for an object,
   * a `TypeError` naming the type of anything else.
   */
  function WithoutIdMessage(v: Value): string {
    match v
    case Obj(_) => "'_id'"
    case Arr(_) => "list indices must be integers or slices, not str"
    case Str(_) => "string indices must be integers"
    case _ => "'" + TypeName(v) + "' object is not subscriptable"
  }

  /** The message of the exception that ends the loop. */
  function AbortMessage(a: Abort): string {
    match a
    case SourceUnbound => UnboundSourceMessage
    case TokenMissing => NoTokenMessage
    case ResponseUndecodable => UndecodableMessage
    case ResponseWithoutId(v) => WithoutIdMessage(v)
  }

  /** The first half of the loop body: the record dict built for a card whose source is known. */
  method BuildRecord(card: Card, source: string, slugify: string -> string) returns (d: JsonObject)
    ensures fresh(d) && d.fields == Record(card, source, slugify)
  {
    var fields := FieldMap(card.customFields);
    var id := GetCustomFieldValue("id", fields, "");
    var date := GetCustomFieldValue("datum", fields, "?");
    var category := GetCustomFieldValue("kategorie", fields, "None");
    var medium := GetCustomFieldValue("medium", fields, "");
    var image := GetCustomFieldValue("bild", fields, "");
    d := new JsonObject(map[
      "_id" := Str(id),
      "slug" := Str(slugify(card.name)),
      "headline" := Str(card.name),
      "snack" := Str(card.description),
      "url" := Str(source),
      "date" := Str(date),
      "category" := Str(category),
      "medium" := Str(medium),
      "image_url" := Str(image)]);
    LayoutWritten(card, source, slugify, FieldMap(card.customFields));
  }

  /**
   * The second half of the loop body: push the record if asked, then write the
   * identifier back and move the card, as `Step` says.
   */
  method HandleRecord(setup: Setup, d: JsonObject, i: nat, cms: Request -> Response)
    returns (effects: seq<Effect>, abort: Option<Abort>)
    requires IdKey in d.fields && d.fields[IdKey].Str?
    modifies d
    ensures Outcome(d.fields, effects, abort) == Step(setup, old(d.fields), i, cms)
  {
    effects := [];
    abort := None;
    if !setup.push {
      return;
    }
    ghost var rec := d.fields;
    var r, sent := Push(One(d), setup.token, true, cms);
    assert AsList(One(d)) == [d];
    if r.Err? {
      return effects, Some(TokenMissing);
    }
    assert SentFor([rec], [d], setup.token, 0, sent[0]);
    effects := [Sent(i, sent[0])];
    var res := r.value[0];
    if !res.payload.Json? {
      return effects, Some(ResponseUndecodable);
    }
    var response := res.payload.value;
    if !(response.Obj? && IdKey in response.members) {
      return effects, Some(ResponseWithoutId(response));
    }
    var defs := DefMap(setup.defs);
    if "id" in defs {
      effects := effects + [SetField(i, response.members[IdKey], defs["id"])];
    }
    if setup.moveTo != "" && res.status == 200 {
      effects := effects + [Moved(i, setup.moveTo)];
    }
  }

  /** Each result object holds the corresponding record. */
  predicate Mirrors(results: seq<JsonObject>, records: seq<map<string, Value>>)
    reads results
  {
    |results| == |records| && forall k :: 0 <= k < |results| ==> results[k].fields == records[k]
  }

  lemma MirrorsAppend(results: seq<JsonObject>, records: seq<map<string, Value>>, d: JsonObject)
    requires Mirrors(results, records)
    ensures Mirrors(results + [d], records + [d.fields])
  {
  }

  /**
   * One pass of the loop body for the card at position `i`: take its source
   * (or keep the carried one), build its record and handle it. The result is
   * the next step of `Run`.
   */
  method NextCard(setup: Setup, cards: seq<Card>, i: nat, source: Option<string>,
                  slugify: string -> string, cms: Request -> Response)
    returns (next: Option<string>, d: JsonObject?, cardEffects: seq<Effect>, abort: Option<Abort>)
    requires i < |cards| && source == Carried(cards, i)
    requires Run(setup, cards, i, slugify, cms).abort.None?
    ensures next == Carried(cards, i + 1)
    ensures Run(setup, cards, i + 1, slugify, cms).effects == Run(setup, cards, i, slugify, cms).effects + cardEffects
    ensures Run(setup, cards, i + 1, slugify, cms).abort == abort
    ensures abort.None? ==> d != null && fresh(d)
    ensures abort.None? ==> Run(setup, cards, i + 1, slugify, cms).records == Run(setup, cards, i, slugify, cms).records + [d.fields]
  {
    next := source;
    var extracted := ExtractSourceUrl(cards[i].attachments);
    if extracted.Ok? {
      next := Some(extracted.value);
    }
    assert next == Carried(cards, i + 1);
    if next.None? {
      return next, null, [], Some(SourceUnbound);
    }
    d := BuildRecord(cards[i], next.value, slugify);
    cardEffects, abort := HandleRecord(setup, d, i, cms);
  }

  /**
   * `fetch_trello(args, log)` over the cards of the input list: the records it
   * returns, and the effects it had, are those of `Run`; it returns records
   * exactly when `Run` does not abort.
   */
  method FetchTrello(setup: Setup, cards: seq<Card>, slugify: string -> string, cms: Request -> Response)
    returns (r: Result<seq<JsonObject>>, effects: seq<Effect>)
    ensures effects == Run(setup, cards, |cards|, slugify, cms).effects
    ensures r.Ok? <==> Run(setup, cards, |cards|, slugify, cms).abort.None?
    ensures r.Err? ==> r.error == AbortMessage(Run(setup, cards, |cards|, slugify, cms).abort.value)
    ensures r.Ok? ==> Mirrors(r.value, Run(setup, cards, |cards|, slugify, cms).records)
  {
    var results: seq<JsonObject> := [];
    effects := [];
    var source: Option<string> := None;
    var stopped: Option<Abort> := None;
    var i := 0;
    while i < |cards| && stopped.None?
      invariant i <= |cards|
      invariant stopped.None? ==> source == Carried(cards, i)
      invariant stopped == Run(setup, cards, i, slugify, cms).abort
      invariant effects == Run(setup, cards, i, slugify, cms).effects
      invariant stopped.None? ==> Mirrors(results, Run(setup, cards, i, slugify, cms).records)
    {
      var d, cardEffects;
      source, d, cardEffects, stopped := NextCard(setup, cards, i, source, slugify, cms);
      effects := effects + cardEffects;
      if stopped.None? {
        MirrorsAppend(results, Run(setup, cards, i, slugify, cms).records, d);
        results := results + [d];
      }
      i := i + 1;
    }
    if stopped.Some? {
      RunStops(setup, cards, i, |cards|, slugify, cms);
      return Err(AbortMessage(stopped.value)), effects;
    }
    return Ok(results), effects;
  }
}
