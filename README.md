# fff-utils core, modelled in Dafny

fff-utils is the tooling of Facts for Friends. It reads fact-check cards from a
Trello board, builds content records from them, and sends those records to the
Strapi CMS. It also recommends stock images for a card from keyword patterns.
This project models the deterministic core of that tooling and proves what it
promises:

- `Helper` (fffutils/helper.py): `split_claim_fact`, splitting a card text into
  claim and fact on a literal delimiter (`===` by default).
- `Trello` (fffutils/trello.py): the card data, `get_custom_field_value` (exact-key
  lookup, right-stripped hit, untouched default) and `extract_attachments` (http
  attachments only, `.png` names are sharepics).
- `FetchTrello` (fffutils/fetch_trello.py): `extract_source_url` (the last http
  attachment, or an exception), the title / text split of a description, and the
  older card loop that builds `{slug, title, text, source}` entries.
- `Strapi` (fffutils/strapi.py): the requests `push`, `add_recommendation`,
  `add_collection` and `get_facts` send. `push` posts a new fact, or puts to
  `facts/<id>` for a record with a non-empty `_id`, and removes `_id` from the
  caller's dict in place. That dict is therefore a class, `JsonObject`.
- `Actions` (fffutils/actions.py): the `fetch_trello` loop. For each card it
  builds the record from a lower-cased custom-field map with defaults. Optionally
  it pushes the record, writes the returned `_id` back onto the card, and moves
  the card. The loop is a method. It is proved against a pure step-by-step
  specification (`Run`), and the properties are proved about `Run`.
- `Image` (fffutils/image.py): the word preprocessing, the vote tally (a loop over
  the matches), the ranking `Counter(votes).most_common()[:n]`, and
  `load_keywords` (a nested loop appending parsed keyword lines per category).
- `Text` and `Wrappers`: the Python string operations the core uses
  (`strip`/`rstrip`, `split` on a literal separator, `join`, `replace`,
  `lower`, `str(int)`), and `Option`/`Result`.

Parts of the code that talk to the outside world take that world as
parameters:

- The CMS is a function from the request sent to the response received.
- The Trello board is the list of cards plus the board's custom-field
  definitions. Card mutations (`set_custom_field`, `change_list`) are returned
  as a trace of effects.
- `slugify` is an uninterpreted function.
- The spaCy pipeline with its phrase matcher is a function from the matcher input
  text to the sequence of matched pattern names.
- The stop-word list is a set.
- The keyword files are a map from category to the lines of its file.

An exception the source lets escape is an `Err` result, or an `Abort` in the
`Actions` loop, whose text is the exception's message as Python 3 (before 3.11)
words it: a `KeyError` gives the quoted key, a `TypeError` names the offending
type. `sys.exit` in `strapi.py` is an `Err` carrying its exit text.

Where the code and its documentation differ, the model follows the code:

- `actions.py` imports `extract_source_url` from `trello.py`, which does not
  define it. The model uses the definition in `fetch_trello.py:47-56`.
- After a card without a source, `next` (actions.py:30, fetch_trello.py:32) is
  an expression statement that does nothing. The card is not skipped: it reuses
  the source of the latest earlier card that had one.
- On the first card without a source, the read of the unbound `source` raises
  and ends the loop.
- The record keeps the raw description and the raw `bild` value. No embargo
  gating, asset resolution or claim splitting happens in this loop.

## Model

| member | source | states |
|---|---|---|
| Helper.SplitClaimFact | fffutils/helper.py:5-13 | both returned parts have no surrounding whitespace; without the delimiter the claim is empty |
| Helper.SplitClaimFactNoDelim | fffutils/helper.py:9-11 | a text without the delimiter gives `("", text.strip())` |
| Helper.SplitClaimFactSegments | fffutils/helper.py:9-13 | with the delimiter, the result is the stripped text before its first occurrence and the stripped text between the first and the second occurrence |
| Helper.SplitClaimFactRoundTrip | fffutils/helper.py:5-13 | `split_claim_fact(c + " " + delim + " " + f) == (c, f)` for trimmed `c`, `f` without the delimiter |
| Trello.GetCustomFieldValue | fffutils/trello.py:26-36 | on a hit: the stored value with exactly its trailing whitespace removed (leading kept); on a miss: the default unchanged |
| Trello.HttpOnlyMembers | fffutils/trello.py:43-52 | an attachment is kept exactly when it is an input attachment whose URL starts with `http` |
| Trello.HttpOnlyAppend | fffutils/trello.py:43-52 | the filter works element by element, so it keeps the input order |
| Trello.ExtractAttachments | fffutils/trello.py:38-54 | one entry per http attachment, in order, no longer than the input, with its URL, labelled sharepic exactly when the name ends in `.png` |
| FetchTrello.LastHttpUrlIsLast | fffutils/fetch_trello.py:50-52 | a source exists exactly when some URL starts with `http`, and it is the URL of the last such attachment |
| FetchTrello.ExtractSourceUrl | fffutils/fetch_trello.py:47-56 | returns the last http URL, which starts with `http`; raises the "No valid source URL" error exactly when there is none |
| FetchTrello.SourceIsLastLink | fffutils/fetch_trello.py:50-52 | the source is the URL of the last attachment the http filter keeps, `.png` names included |
| FetchTrello.TitleTextSingleLine | fffutils/fetch_trello.py:24-25 | a description without a newline is all title and empty text |
| FetchTrello.TitleTextRoundTrip | fffutils/fetch_trello.py:24-25 | otherwise `title + "\n" + text == description` and the title holds no newline |
| FetchTrello.CarriedIsLatestSource | fffutils/fetch_trello.py:27-32 | the source a card uses is that of the latest card up to it that has one |
| FetchTrello.FetchTrello | fffutils/fetch_trello.py:22-45 | fails exactly when the first card has no source; otherwise one entry per card in order, with `slug == slugify(title)`, the title/text split and the carried source |
| Strapi.Route | fffutils/strapi.py:22-29 | PUT to `base/id` exactly when the id is a non-empty string, POST to `base` otherwise; any other id that is not `None` raises the `TypeError` of the concatenation, naming the id's type |
| Strapi.RouteUrlRoundTrip | fffutils/strapi.py:27-29 | the id can be read back from an update URL |
| Strapi.JsonObject.Pop | fffutils/strapi.py:26 | `d.pop('_id', None)`: returns the value if present and removes the key, leaving the rest |
| Strapi.FactRequestShape | fffutils/strapi.py:21-41 | the body is the record without `_id`, with every other key; PUT to `facts/<id>` exactly for a non-empty string `_id`, POST to `facts` otherwise; bearer token header |
| Strapi.FactRequestFails | fffutils/strapi.py:26-29 | building the request raises exactly when `_id` is present, not `None` and not a string |
| Strapi.SentForShape | fffutils/strapi.py:21-42 | the k-th request is built from the k-th record as it was before the loop; a dict listed twice has lost its `_id` by its second turn |
| Strapi.PrepareRecord | fffutils/strapi.py:22-33 | removes `_id` from the caller's dict and yields the request, or the error of the route or of logging to `None` |
| Strapi.SendAll | fffutils/strapi.py:21-44 | one request and response per record in order; on failure, the failing record and the dicts popped so far; each dict loses exactly `_id`; without a logger a non-empty list fails at its first record before any request |
| Strapi.Push | fffutils/strapi.py:8-44 | an empty token exits before any request and changes nothing; otherwise as `SendAll` over the list, a single record sending at most one request (exactly one on success); with the default logger `None` it fails before any request |
| Strapi.AddRecommendation | fffutils/strapi.py:46-72 | always one POST to `recommendations` whose body has exactly the keys `fact` and `recommends`; an empty token exits first |
| Strapi.AddCollection | fffutils/strapi.py:74-108 | body keys exactly `name`, `comment`, `valid_through`, `facts`; PUT to `collections/<id>` exactly for a non-empty id, else POST; an id that is neither `None` nor a string raises the concatenation's `TypeError`; an empty token exits first |
| Strapi.FactsQueryUrlInjective | fffutils/strapi.py:113 | different limits give different `facts?_limit=` URLs |
| Strapi.GetFacts | fffutils/strapi.py:111-120 | a GET of `facts?_limit=<limit>` without a body; an unreadable response body gives the empty list, malformed JSON raises |
| Actions.ByLowerNameKeys | fffutils/actions.py:33 | a dict built from lower-cased names has exactly the lower-cased names as keys |
| Actions.ByLowerNameLastWins | fffutils/actions.py:33 | when names collide after lower-casing, the later entry is kept |
| Actions.FieldMapEntries | fffutils/actions.py:33 | the card's field map has a key exactly for each lower-cased field name, holding the value of the last field with that name |
| Actions.DefMapEntries | fffutils/actions.py:17-18 | the board's definition map has a key exactly for each lower-cased definition name, holding the last definition with that name |
| Actions.Record | fffutils/actions.py:43-53 | the record always has a string `_id` |
| Actions.LayoutWritten | fffutils/actions.py:37-53 | the record is the nine-key dict of the source, each custom field looked up with its default |
| Actions.RecordShape | fffutils/actions.py:43-53 | keys exactly the nine record keys; `slug = slugify(name)`, `headline = name`, `snack = description` unsplit, `url = source`; every value a string |
| Actions.RecordDefaults | fffutils/actions.py:37-41 | missing fields give `_id ""`, `date "?"`, `category "None"`, `medium ""`, `image_url ""`; a present `bild` gives its value right-stripped |
| Actions.RecordRequest | fffutils/actions.py:59-60 | a built record always yields a request: its `_id` is a string |
| Actions.RecordRequestRoute | fffutils/actions.py:37-60 | the push of a card's record is a PUT to `facts/<id>` exactly when the card's `id` field is non-empty; the body is the record without `_id` |
| Actions.RunStops | fffutils/actions.py:21-79 | after an exception the loop does nothing more |
| Actions.RunRecordCount | fffutils/actions.py:21-77 | at most one record per card, exactly one per card when nothing raised |
| Actions.RunRecordsAre | fffutils/actions.py:21-77 | when nothing raised, record k is the record built from card k with the source carried to it, without `_id` under push |
| Actions.RunWithoutPush | fffutils/actions.py:59-77 | without push: no request, write-back or move; each record keeps `_id`; the loop raises exactly when the first card has no source |
| Actions.CarriedFromFirst | fffutils/actions.py:25-30 | once the first card has a source, every later card has one to reuse |
| Actions.RunWithPushDropsId | fffutils/actions.py:59-77 | with push, no returned record has `_id`, because the pushed dict is the appended one |
| Actions.StepPushedRecord | fffutils/actions.py:59-60 | a pushed record that did not abort the loop has lost `_id` |
| Actions.StepMoves | fffutils/actions.py:73-75 | a card is moved exactly when push is set, a token exists, `move_to` is non-empty, the response has status 200 and the write-back did not raise |
| Actions.StepWritesBack | fffutils/actions.py:59-71 | the request is sent first; a decoded response with `_id` sets the card's `id` field when the board defines one (a missing definition is only logged); a response without `_id` aborts with the `KeyError` or `TypeError` of indexing it, an undecodable one with the `TypeError` of indexing the response object |
| Actions.BuildRecord | fffutils/actions.py:32-53 | the dict `d` is a fresh object holding the record of the card |
| Actions.HandleRecord | fffutils/actions.py:59-75 | the push, write-back and move of one record, with the record's new contents, as the step specification says |
| Actions.NextCard | fffutils/actions.py:21-77 | one iteration: the carried source, the effects and the appended record advance the specification by one card |
| Actions.FetchTrello | fffutils/actions.py:11-79 | the effects are those of the specification; the result is returned exactly when nothing raised, holding dicts whose contents are the specification's records |
| Image.WordsShape | fffutils/image.py:9 | the words are lower-case and hold neither a space nor a hyphen, and joined by spaces they give the cleaned text lower-cased |
| Image.WithoutStopWordsAppend | fffutils/image.py:12 | the filter keeps the order of the words |
| Image.WithoutStopWordsCounts | fffutils/image.py:12 | every occurrence of a stop word is removed and every other word keeps all its occurrences |
| Image.FirstSeenFacts | fffutils/image.py:18-23 | the dict's key order lists each matched name once, in the order of its first match |
| Image.VotesCount | fffutils/image.py:18-23 | exactly the matched names have votes, each as many as its occurrences |
| Image.Tally | fffutils/image.py:18-23 | the loop yields the vote dict and its key insertion order |
| Image.VotesTotal | fffutils/image.py:18-23 | the votes add up to the number of matches |
| Image.MostCommonRanked | fffutils/image.py:26-27 | `most_common()` is a permutation of the keys in descending vote order, ties kept in insertion order |
| Image.RankedUnique | fffutils/image.py:26-27 | that ordering is unique: any stable descending sort of the keys gives the same list |
| Image.Head | fffutils/image.py:27 | `[:n]` is a prefix of length `min(n, len)`, or `len + n` clamped at 0 for negative `n` |
| Image.BeforeIsOutranks | fffutils/image.py:18-27 | ranking the keys by votes and insertion order is ranking names by matches and first match |
| Image.RankingOfMatches | fffutils/image.py:18-27 | the full ranking lists each matched name exactly once, ranked |
| Image.RecommendSize | fffutils/image.py:26-27 | at most `n` names, exactly `n` when there are that many distinct matched names; each is a matched name |
| Image.RecommendOrder | fffutils/image.py:18-27 | non-increasing number of matches, ties in order of first match |
| Image.RecommendTop | fffutils/image.py:18-27 | every recommended name outranks every matched name left out |
| Image.RecommendImages | fffutils/image.py:6-27 | the recommendation for the matches of the filtered, joined words of the text |
| Image.ParseLineOk | fffutils/image.py:39-41 | a line parses exactly when it holds one tab; no tab and several tabs raise the two unpacking errors; the name is the text before the tab and the keywords are the rest right-stripped, lower-cased and split on commas |
| Image.ParseLineRoundTrip | fffutils/image.py:39-41 | a tab-free name and keyword text joined by a tab parse back into that name and its keywords |
| Image.ParseLinesFacts | fffutils/image.py:38-46 | a file parses exactly when each line does, one pattern per line in line order; otherwise the first failing line's error is raised |
| Image.ParseLinesErrPersists | fffutils/image.py:38-39 | once a line has raised, later lines do not matter |
| Image.AppendLines | fffutils/image.py:38-46 | the inner loop appends the file's patterns to the category's list, or raises the first line's error |
| Image.LoadOk | fffutils/image.py:29-47 | loading succeeds exactly when every category has a file whose lines all parse |
| Image.LoadKeys | fffutils/image.py:31-34 | every listed category gets a key, even with an empty file |
| Image.LoadEntries | fffutils/image.py:31-46 | a category's list is its file's patterns in line order, repeated once per listing of the category |
| Image.LoadErrPersists | fffutils/image.py:29-47 | once a category has raised, the later ones do not matter |
| Image.LoadKeywords | fffutils/image.py:29-47 | the nested loop computes the specification `Load` |

## Left out

- Network I/O, urllib3 and JSON encoding: requests are values, a body is the map that would be encoded, and responses come from the `cms` parameter. Numbers in JSON are integers.
- The Trello client (`connect_board`, `TrelloClient`, `get_list`, `list_cards`, `get_custom_field_definitions`): the cards and field definitions are inputs. `set_custom_field` and `change_list` are recorded effects whose own failures are not modelled.
- Environment variables: the Strapi token is a parameter. The Trello credentials check and its `sys.exit` (fetch_trello.py:10-14, and the same check in `connect_board`) are not part of this model: `FetchTrello.FetchTrello` and `Actions.FetchTrello` start from the cards.
- `slugify` is an uninterpreted function; its transliteration rules are not modelled.
- spaCy (`nlp`, `PhraseMatcher`, `nlp.vocab`, `nlp.pipe`) and `STOP_WORDS`: the matcher is a function from text to matched names, and the stop words are a set. Keyword phrases stay strings, not parsed documents.
- `load_keyword_matcher`, fffutils/nlp.py, fffutils/unsplash.py, fffutils/aws.py, fffutils/push_trello.py, the command line in fffutils/fffutils.py and setup.py are not part of this model.
- File reading in `load_keywords`: the lines of each category's file are given, and a category without a file raises Python's "No such file" error. Python's splitting of a file into lines is not modelled.
- Logging: messages written to the logger are not modelled. The one visible effect is `push` failing when it logs through the default logger `None` (`hasLogger`).
- Text.Lower: `str.lower` is modelled for ASCII and Latin-1 letters only; other characters are left unchanged.
- Helper.SplitClaimFact: `re.split` is modelled for a literal, non-empty delimiter only, as with the default `===`; regular-expression metacharacters are not interpreted.
- Image.MostCommon: `sorted` (Timsort) is modelled by a stable insertion into a descending order; `Image.RankedUnique` shows every stable descending sort gives the same list.
- Strapi.GetFacts: the error of a malformed response is not pinned down beyond being an error; Python's `JSONDecodeError` message depends on the body text, which is not modelled.
- Exception messages follow Python 3 before 3.11; later versions word the unbound-local and string-index errors differently. Only the message is modelled, not the exception's type.
