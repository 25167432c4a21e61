/**
 * Model of fffutils/strapi.py: the requests the client sends to the Strapi CMS.
 * The HTTP round trip is a parameter `cms` from the request sent to the response
 * received; JSON encoding is left abstract (a request body is the map of values
 * that would be encoded). A record handed to `push` is a mutable `JsonObject`,
 * because `push` removes its `_id` key in place.
 */
module Strapi {
  import opened Wrappers
  import opened Text

  /** A decoded JSON value (numbers are integers in this model). */
  datatype Value =
    | Null
    | Bool(b: bool)
    | Num(n: int)
    | Str(s: string)
    | Arr(items: seq<Value>)
    | Obj(members: map<string, Value>)

  /** The HTTP method. */
  datatype Method = Get | Post | Put

  /**
   * An HTTP request: method, URL, the JSON body (absent for a GET) and the
   * `Authorization` header value (absent when the source sends none).
   */
  datatype Request = Request(verb: Method, url: string, body: Option<map<string, Value>>, auth: Option<string>)

  /** What the response body decodes to: nothing readable (`TypeError`), malformed JSON, or a value. */
  datatype Payload = NoData | Malformed | Json(value: Value)

  datatype Response = Response(status: int, payload: Payload)

  const BaseUrl := "https://cms.factsforfriends.de"
  const FactsUrl := BaseUrl + "/facts"
  const RecommendationsUrl := BaseUrl + "/recommendations"
  const CollectionsUrl := BaseUrl + "/collections"

  /** The key that carries a record's CMS identifier. */
  const IdKey := "_id"

  const NoTokenMessage := "Could not find Strapi JWT auth token in environment. Please set STRAPI_AUTH_TOKEN."
  /** The name Python gives the type of a decoded JSON value. */
  function TypeName(v: Value): string {
    match v
    case Null => "NoneType"
    case Bool(_) => "bool"
    case Num(_) => "int"
    case Str(_) => "str"
    case Arr(_) => "list"
    case Obj(_) => "dict"
  }

  /** The `TypeError` of `url + '/' + id` with an identifier `v` that is not a string. */
  function IdTypeMessage(v: Value): string {
    "can only concatenate str (not \"" + TypeName(v) + "\") to str"
  }
  /** `log.debug` on the default logger `None`. */
  const NoLoggerMessage := "'NoneType' object has no attribute 'debug'"
  const MalformedMessage := "response body is not valid JSON"

  /** The `Authorization` header for a token. */
  function Bearer(token: string): string {
    "Bearer " + token
  }

  /**
   * Create or update: POST to `base` unless the identifier is a non-empty
   * string, in which case PUT to `base/id`. A present identifier that is
   * neither `None` nor a string makes the URL concatenation raise.
   */
  function Route(base: string, id: Option<Value>): (r: Result<(Method, string)>)
    ensures r.Ok? && r.value.0 == Put <==> id.Some? && id.value.Str? && id.value.s != ""
    ensures r.Ok? && r.value.0 == Put ==> r.value.1 == base + "/" + id.value.s
    ensures r.Ok? && r.value.0 == Post ==> r.value.1 == base
    ensures r.Ok? ==> r.value.0 != Get
    ensures r.Err? <==> id.Some? && !id.value.Null? && !id.value.Str?
    ensures r.Err? ==> r.error == IdTypeMessage(id.value)
  {
    match id
    case None => Ok((Post, base))
    case Some(Null) => Ok((Post, base))
    case Some(Str(s)) => if s == "" then Ok((Post, base)) else Ok((Put, base + "/" + s))
    case Some(v) => Err(IdTypeMessage(v))
  }

  /** The identifier can be read back from the URL of an update. */
  lemma RouteUrlRoundTrip(base: string, id: Option<Value>)
    requires Route(base, id).Ok? && Route(base, id).value.0 == Put
    ensures var url := Route(base, id).value.1;
      |url| > |base| + 1 && url[..|base| + 1] == base + "/" && Some(Str(url[|base| + 1..])) == id
  {
    var url := Route(base, id).value.1;
    assert url == base + "/" + id.value.s;
    assert url[..|base| + 1] == base + "/";
    assert url[|base| + 1..] == id.value.s;
  }

  /** `d.pop(key, None)`, as a value: what was stored under `key`, and the map without it. */
  function PopKey(fields: map<string, Value>, key: string): (Option<Value>, map<string, Value>) {
    (if key in fields then Some(fields[key]) else None, fields - {key})
  }

  /** A JSON object the caller owns and `push` updates in place. */
  class JsonObject {
    var fields: map<string, Value>

    constructor(fields: map<string, Value>)
      ensures this.fields == fields
    {
      this.fields := fields;
    }

    /** `self.pop(key, None)`. */
    method Pop(key: string) returns (r: Option<Value>)
      modifies this
      ensures (r, fields) == PopKey(old(fields), key)
    {
      if key in fields {
        r := Some(fields[key]);
      } else {
        r := None;
      }
      fields := fields - {key};
    }
  }

  /** The argument of `push`: one record, or a list of them. */
  datatype Records = One(record: JsonObject) | Many(records: seq<JsonObject>)

  /** `if not isinstance(data, list): data = [data]`. */
  function AsList(data: Records): (r: seq<JsonObject>)
    ensures data.One? ==> r == [data.record]
    ensures data.Many? ==> r == data.records
  {
    match data
    case One(o) => [o]
    case Many(os) => os
  }

  /**
   * The request `push` sends for a record whose fields are `fields` when it is
   * reached: the `_id` is taken out to choose the route and is not in the body.
   */
  function FactRequest(fields: map<string, Value>, token: string): Result<Request> {
    var (id, body) := PopKey(fields, IdKey);
    match Route(FactsUrl, id)
    case Err(e) => Err(e)
    case Ok((m, url)) => Ok(Request(m, url, Some(body), Some(Bearer(token))))
  }

  /**
   * A fact request never carries `_id` in its body, keeps every other key, and
   * is an update of `facts/<id>` exactly when the record had a non-empty string
   * `_id`; otherwise it creates.
   */
  lemma FactRequestShape(fields: map<string, Value>, token: string)
    requires FactRequest(fields, token).Ok?
    ensures var req := FactRequest(fields, token).value;
      && req.body == Some(fields - {IdKey}) && IdKey !in req.body.value
      && req.auth == Some(Bearer(token))
      && (req.verb == Put <==> IdKey in fields && fields[IdKey].Str? && fields[IdKey].s != "")
      && (req.verb == Put ==> req.url == FactsUrl + "/" + fields[IdKey].s)
      && (req.verb != Put ==> req.verb == Post && req.url == FactsUrl)
  {
  }

  /** A fact request fails exactly when `_id` holds something other than `None` or a string. */
  lemma FactRequestFails(fields: map<string, Value>, token: string)
    ensures FactRequest(fields, token).Err? <==> IdKey in fields && !fields[IdKey].Null? && !fields[IdKey].Str?
  {
  }

  /** `o` is among the first `n` records. */
  predicate Among(objs: seq<JsonObject>, o: JsonObject, n: nat)
    requires n <= |objs|
  {
    n > 0 && (objs[n - 1] == o || Among(objs, o, n - 1))
  }

  /** Removing a key twice is removing it once. */
  lemma RemoveTwice(m: map<string, Value>, key: string)
    ensures m - {key} - {key} == m - {key}
  {
  }

  /** Every record is among any prefix that reaches past it. */
  lemma {:induction false} AmongPrefix(objs: seq<JsonObject>, k: nat, n: nat)
    requires k < n <= |objs|
    ensures Among(objs, objs[k], n)
    decreases n
  {
    if objs[n - 1] != objs[k] {
      AmongPrefix(objs, k, n - 1);
    }
  }

  /** The fields record `k` holds when `push` reaches it: a record listed earlier has lost its `_id` already. */
  function Reached(fields: map<string, Value>, seenBefore: bool): map<string, Value> {
    if seenBefore then fields - {IdKey} else fields
  }

  /** The fields of each record, in list order. */
  function Snapshot(objs: seq<JsonObject>): (r: seq<map<string, Value>>)
    reads objs
    ensures |r| == |objs| && forall k :: 0 <= k < |objs| ==> r[k] == objs[k].fields
  {
    seq(|objs|, k requires 0 <= k < |objs| reads objs => objs[k].fields)
  }

  /**
   * `req` is what `push` sends for record `k`, given the records' fields `init`
   * before the call: a record listed earlier has lost its `_id` by then.
   */
  predicate SentFor(init: seq<map<string, Value>>, objs: seq<JsonObject>, token: string, k: nat, req: Request)
    requires |init| == |objs| && k < |objs|
  {
    FactRequest(Reached(init[k], Among(objs, objs[k], k)), token) == Ok(req)
  }

  /** Building the request for record `k` raises (its `_id` is neither `None` nor a string). */
  predicate FailsFor(init: seq<map<string, Value>>, objs: seq<JsonObject>, token: string, k: nat)
    requires |init| == |objs| && k < |objs|
  {
    FactRequest(Reached(init[k], Among(objs, objs[k], k)), token).Err?
  }

  /**
   * What `push` sends for record `k`: its fields without `_id`, authorised with
   * the token, as an update of `facts/<id>` exactly when the record has a
   * non-empty string `_id` and is not listed earlier (a record listed twice is
   * created the second time, its `_id` being gone), and as a creation otherwise.
   */
  lemma SentForShape(init: seq<map<string, Value>>, objs: seq<JsonObject>, token: string, k: nat, req: Request)
    requires |init| == |objs| && k < |objs| && SentFor(init, objs, token, k, req)
    ensures req.body == Some(init[k] - {IdKey}) && req.auth == Some(Bearer(token))
    ensures req.verb == Put <==> !Among(objs, objs[k], k) && IdKey in init[k] && init[k][IdKey].Str? && init[k][IdKey].s != ""
    ensures req.verb == Put ==> req.url == FactsUrl + "/" + init[k][IdKey].s
    ensures req.verb != Put ==> req.verb == Post && req.url == FactsUrl
  {
    RemoveTwice(init[k], IdKey);
  }

  /**
   * One pass of `push`'s loop body up to the request: pop `_id`, pick the route,
   * and log (which raises without a logger). The record loses its `_id` even
   * when a later step raises.
   */
  method PrepareRecord(d: JsonObject, token: string, hasLogger: bool) returns (r: Result<Request>)
    modifies d
    ensures d.fields == old(d.fields) - {IdKey}
    ensures FactRequest(old(d.fields), token).Err? ==> r == FactRequest(old(d.fields), token)
    ensures FactRequest(old(d.fields), token).Ok? ==> r == if hasLogger then FactRequest(old(d.fields), token) else Err(NoLoggerMessage)
  {
    var id := d.Pop(IdKey);
    var route := Route(FactsUrl, id);
    if route.Err? {
      return Err(route.error);
    }
    var (m, url) := route.value;
    if !hasLogger {
      return Err(NoLoggerMessage);
    }
    return Ok(Request(m, url, Some(d.fields), Some(Bearer(token))));
  }

  /**
   * The loop of `push` over the records `objs`: one request per record in list
   * order, each built by `FactRequest` from the record as it is when reached;
   * every record reached loses its `_id` key, and nothing else changes. Without
   * a logger (`log=None`) the debug call raises right after the first record's
   * `_id` was removed. The responses are the CMS's answers, in order.
   */
  method SendAll(objs: seq<JsonObject>, token: string, hasLogger: bool, cms: Request -> Response)
    returns (r: Result<seq<Response>>, sent: seq<Request>)
    modifies objs
    ensures |sent| <= |objs|
    ensures forall k :: 0 <= k < |sent| ==> SentFor(old(Snapshot(objs)), objs, token, k, sent[k])
    ensures r.Ok? ==> |sent| == |objs| && |r.value| == |sent|
    ensures r.Ok? ==> forall k :: 0 <= k < |sent| ==> r.value[k] == cms(sent[k])
    ensures r.Err? ==> |sent| < |objs| && (FailsFor(old(Snapshot(objs)), objs, token, |sent|) || !hasLogger)
    ensures !hasLogger && |objs| > 0 ==> r.Err? && sent == []
    ensures forall k :: 0 <= k < |objs| ==>
      objs[k].fields == Reached(old(Snapshot(objs))[k], r.Ok? || Among(objs, objs[k], |sent| + 1))
  {
    sent := [];
    ghost var init := Snapshot(objs);
    var responses: seq<Response> := [];
    for i := 0 to |objs|
      invariant |sent| == i && |responses| == i
      invariant !hasLogger ==> i == 0
      invariant forall k :: 0 <= k < i ==> SentFor(init, objs, token, k, sent[k])
      invariant forall k :: 0 <= k < i ==> responses[k] == cms(sent[k])
      invariant forall k :: 0 <= k < |objs| ==> objs[k].fields == Reached(init[k], Among(objs, objs[k], i))
    {
      var d := objs[i];
      assert d.fields == Reached(init[i], Among(objs, d, i));
      var req := PrepareRecord(d, token, hasLogger);
      RemoveTwice(init[i], IdKey);
      forall k | 0 <= k < |objs|
        ensures objs[k].fields == Reached(init[k], Among(objs, objs[k], i + 1))
      {
        if objs[k] != d {
          assert Among(objs, objs[k], i + 1) == Among(objs, objs[k], i);
        }
      }
      if req.Err? {
        return Err(req.error), sent;
      }
      assert hasLogger;
      assert SentFor(init, objs, token, i, req.value);
      sent := sent + [req.value];
      responses := responses + [cms(req.value)];
    }
    forall k | 0 <= k < |objs| ensures Among(objs, objs[k], |objs|) {
      AmongPrefix(objs, k, |objs|);
    }
    return Ok(responses), sent;
  }

  /**
   * `push(data, log)`: a single record is treated as a one-element list; an
   * empty token exits before any record is touched or any request is sent;
   * otherwise the loop `SendAll` runs over the list. Without a logger the
   * call fails on the first record, after that record has lost its `_id`.
   */
  method Push(data: Records, token: string, hasLogger: bool, cms: Request -> Response)
    returns (r: Result<seq<Response>>, sent: seq<Request>)
    modifies AsList(data)
    ensures token == "" ==> r == Err(NoTokenMessage) && sent == [] && forall o :: o in AsList(data) ==> o.fields == old(o.fields)
    ensures |sent| <= |AsList(data)|
    ensures token != "" ==> forall k :: 0 <= k < |sent| ==> SentFor(old(Snapshot(AsList(data))), AsList(data), token, k, sent[k])
    ensures r.Ok? ==> |sent| == |AsList(data)| && |r.value| == |sent|
    ensures r.Ok? ==> forall k :: 0 <= k < |sent| ==> r.value[k] == cms(sent[k])
    ensures r.Err? && token != "" ==> |sent| < |AsList(data)|
    ensures r.Err? && token != "" ==> (FailsFor(old(Snapshot(AsList(data))), AsList(data), token, |sent|) || !hasLogger)
    ensures token != "" && !hasLogger && |AsList(data)| > 0 ==> r.Err? && sent == []
    ensures data.One? ==> |sent| <= 1 && (r.Ok? ==> |sent| == 1)
    ensures token != "" ==> forall k :: 0 <= k < |AsList(data)| ==>
      AsList(data)[k].fields == Reached(old(Snapshot(AsList(data)))[k], r.Ok? || Among(AsList(data), AsList(data)[k], |sent| + 1))
  {
    if token == "" {
      return Err(NoTokenMessage), [];
    }
    r, sent := SendAll(AsList(data), token, hasLogger, cms);
  }

  /**
   * `add_recommendation(fact, recommendations, log)`: always a POST to the
   * recommendations collection whose body has exactly the keys `fact` and
   * `recommends`; an empty token exits before any request.
   */
  method AddRecommendation(fact: Value, recommendations: Value, token: string, cms: Request -> Response)
    returns (r: Result<Response>, sent: seq<Request>)
    ensures token == "" <==> r.Err?
    ensures r.Err? ==> r.error == NoTokenMessage && sent == []
    ensures r.Ok? ==> |sent| == 1 && sent[0].verb == Post && sent[0].url == RecommendationsUrl
    ensures r.Ok? ==> sent[0].body.Some? && sent[0].body.value.Keys == {"fact", "recommends"}
    ensures r.Ok? ==> sent[0].body.value["fact"] == fact && sent[0].body.value["recommends"] == recommendations
    ensures r.Ok? ==> sent[0].auth == Some(Bearer(token)) && r.value == cms(sent[0])
  {
    if token == "" {
      return Err(NoTokenMessage), [];
    }
    var body: map<string, Value> := map[];
    body := body["fact" := fact];
    body := body["recommends" := recommendations];
    var req := Request(Post, RecommendationsUrl, Some(body), Some(Bearer(token)));
    return Ok(cms(req)), [req];
  }

  /** The body `add_collection` builds. */
  function CollectionBody(name: Value, comment: Value, validThrough: Value, facts: Value): map<string, Value> {
    map["name" := name, "comment" := comment, "valid_through" := validThrough, "facts" := facts]
  }

  /**
   * `add_collection(name, comment, valid_through, facts, id, log)`: the body has
   * exactly the keys `name`, `comment`, `valid_through` and `facts`; the request
   * is a PUT to `collections/<id>` when `id` is a non-empty string and a POST to
   * the collection otherwise; an empty token exits before any request.
   */
  method AddCollection(name: Value, comment: Value, validThrough: Value, facts: Value, token: string,
                       cms: Request -> Response, id: Option<Value> := None)
    returns (r: Result<Response>, sent: seq<Request>)
    ensures token == "" ==> r == Err(NoTokenMessage) && sent == []
    ensures token != "" && Route(CollectionsUrl, id).Err? ==> r == Err(Route(CollectionsUrl, id).error) && sent == []
    ensures r.Ok? <==> token != "" && Route(CollectionsUrl, id).Ok?
    ensures r.Ok? ==> |sent| == 1 && r.value == cms(sent[0]) && sent[0].auth == Some(Bearer(token))
    ensures r.Ok? ==> (sent[0].verb, sent[0].url) == Route(CollectionsUrl, id).value
    ensures r.Ok? ==> sent[0].body.Some? && sent[0].body.value.Keys == {"name", "comment", "valid_through", "facts"}
    ensures r.Ok? ==> sent[0].body.value == CollectionBody(name, comment, validThrough, facts)
  {
    if token == "" {
      return Err(NoTokenMessage), [];
    }
    var body: map<string, Value> := map[];
    body := body["name" := name];
    body := body["comment" := comment];
    body := body["valid_through" := validThrough];
    body := body["facts" := facts];
    var verb := Post;
    var url := CollectionsUrl;
    if id.Some? && !id.value.Null? {
      if !id.value.Str? {
        return Err(IdTypeMessage(id.value)), [];
      }
      if id.value.s != "" {
        verb := Put;
        url := url + "/" + id.value.s;
      }
    }
    var req := Request(verb, url, Some(body), Some(Bearer(token)));
    return Ok(cms(req)), [req];
  }

  /** The URL `get_facts(limit)` reads. */
  function FactsQueryUrl(limit: int): string {
    FactsUrl + "?_limit=" + IntToString(limit)
  }

  /** Distinct limits give distinct query URLs. */
  lemma FactsQueryUrlInjective(a: int, b: int)
    requires FactsQueryUrl(a) == FactsQueryUrl(b)
    ensures a == b
  {
    var p := FactsUrl + "?_limit=";
    assert FactsQueryUrl(a)[|p|..] == IntToString(a);
    assert FactsQueryUrl(b)[|p|..] == IntToString(b);
    IntToStringRoundTrip(a);
    IntToStringRoundTrip(b);
  }

  /**
   * `get_facts(limit, log)`: an unauthenticated GET of `facts?_limit=<limit>`
   * (by default `-1`); an undecodable body that raises `TypeError` gives the
   * empty list, malformed JSON raises, and a decoded body is returned as is.
   */
  method GetFacts(cms: Request -> Response, limit: int := -1) returns (r: Result<Value>, sent: Request)
    ensures sent == Request(Get, FactsQueryUrl(limit), None, None)
    ensures cms(sent).payload.NoData? ==> r == Ok(Arr([]))
    ensures cms(sent).payload.Malformed? ==> r.Err?
    ensures cms(sent).payload.Json? ==> r == Ok(cms(sent).payload.value)
  {
    sent := Request(Get, FactsUrl + "?_limit=" + IntToString(limit), None, None);
    var res := cms(sent);
    match res.payload
    case NoData => r := Ok(Arr([]));
    case Malformed => r := Err(MalformedMessage);
    case Json(v) => r := Ok(v);
  }
}
