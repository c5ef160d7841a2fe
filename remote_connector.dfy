/**
 * `network.RemoteConnector`: builds the HTTP requests of the client, classifies the
 * responses and decodes their bodies. Executing a request is left open: the operations
 * receive it as a function from the request as sent to what came back.
 */
module RemoteConnector {
  import opened Wrappers
  import opened Decimal
  import opened JavaLang
  import opened Outcomes
  import opened Paths
  import opened Model
  import Json
  import Scan
  import GroupCodec
  import TopicCodec
  import ShareVisibilityCodec
  import SharedContentCodec

  datatype Verb = HttpGet | HttpPost | HttpPut | HttpDelete

  /** The entity a POST or PUT encloses: `new StringEntity(text)` with its content type. */
  datatype Payload = Payload(text: string, contentType: string)

  /** A request as the HTTP client receives it. */
  datatype Message = Message(verb: Verb, url: string, headers: seq<(string, string)>, payload: Option<Payload>)

  /**
   * What executing a request gives: a response (its status code, its status line and the
   * text of its body), or the `ClientProtocolException`, `ParseException` or `IOException`
   * that aborted it, with its message.
   */
  datatype Exchange = Answered(status: int, statusLine: string, body: string) | IoFailure(message: Option<string>)

  const AcceptHeader := "Accept"
  const AuthTokenHeader := "AUTH_TOKEN"
  const JsonType := "application/json"
  const StatusOk := 200
  const StatusForbidden := 403

  /**
   * `setHeader(name, value)`: replaces the first header whose name equals `name` ignoring
   * case, or appends one when there is none.
   */
  function Updated(headers: seq<(string, string)>, name: string, value: string): seq<(string, string)> {
    if |headers| == 0 then [(name, value)]
    else if EqualsIgnoreCase(headers[0].0, name) then [(name, value)] + headers[1..]
    else [headers[0]] + Updated(headers[1..], name, value)
  }

  /** `getFirstHeader(name).getValue()`: the value of the first header named `name`, ignoring case. */
  function Header(headers: seq<(string, string)>, name: string): Option<string> {
    if |headers| == 0 then None
    else if EqualsIgnoreCase(headers[0].0, name) then Some(headers[0].1)
    else Header(headers[1..], name)
  }

  /** After `setHeader(name, value)` the header reads `value`, and every header of another name is unchanged. */
  lemma {:induction false} UpdatedHeader(headers: seq<(string, string)>, name: string, value: string, other: string)
    ensures Header(Updated(headers, name, value), name) == Some(value)
    ensures !EqualsIgnoreCase(other, name) ==> Header(Updated(headers, name, value), other) == Header(headers, other)
  {
    assert EqualsIgnoreCase(name, name);
    if |headers| > 0 && !EqualsIgnoreCase(headers[0].0, name) {
      UpdatedHeader(headers[1..], name, value, other);
    }
  }

  /** Where the scan of `setHeader` stops: at the first header named `name`, or past the end. */
  lemma {:induction false} UpdatedAt(headers: seq<(string, string)>, name: string, value: string, i: nat)
    requires i <= |headers|
    requires forall j :: 0 <= j < i ==> !EqualsIgnoreCase(headers[j].0, name)
    requires i < |headers| ==> EqualsIgnoreCase(headers[i].0, name)
    ensures i < |headers| ==> Updated(headers, name, value) == headers[i := (name, value)]
    ensures i == |headers| ==> Updated(headers, name, value) == headers + [(name, value)]
  {
    if i > 0 {
      UpdatedAt(headers[1..], name, value, i - 1);
      if i < |headers| {
        assert [headers[0]] + headers[1..][i - 1 := (name, value)] == headers[i := (name, value)];
      } else {
        assert [headers[0]] + (headers[1..] + [(name, value)]) == headers + [(name, value)];
      }
    }
  }

  /** The two headers every request carries: `Accept: application/json` and the token. */
  function Headers(token: string): seq<(string, string)> {
    [(AcceptHeader, JsonType), (AuthTokenHeader, token)]
  }

  /** Every request accepts JSON and carries the token under `AUTH_TOKEN`. */
  lemma HeadersCarryToken(token: string)
    ensures Header(Headers(token), AcceptHeader) == Some(JsonType)
    ensures Header(Headers(token), AuthTokenHeader) == Some(token)
    ensures Updated(Updated([], AcceptHeader, JsonType), AuthTokenHeader, token) == Headers(token)
  {
    assert EqualsIgnoreCase(AcceptHeader, AcceptHeader);
    assert EqualsIgnoreCase(AuthTokenHeader, AuthTokenHeader);
    assert !EqualsIgnoreCase(AcceptHeader, AuthTokenHeader);
  }

  /** An `HttpGet`, `HttpPost`, `HttpPut` or `HttpDelete` under construction. */
  class Request {
    const verb: Verb
    const url: string
    var headers: seq<(string, string)>
    var payload: Option<Payload>

    constructor (verb: Verb, url: string)
      ensures this.verb == verb && this.url == url && headers == [] && payload == None
    {
      this.verb := verb;
      this.url := url;
      headers := [];
      payload := None;
    }

    /** `setHeader(name, value)`: scans for the first header of that name and replaces it, else appends. */
    method SetHeader(name: string, value: string)
      modifies this
      ensures headers == Updated(old(headers), name, value) && payload == old(payload)
    {
      var i := 0;
      while i < |headers| && !EqualsIgnoreCase(headers[i].0, name)
        invariant i <= |headers|
        invariant forall j :: 0 <= j < i ==> !EqualsIgnoreCase(headers[j].0, name)
      {
        i := i + 1;
      }
      UpdatedAt(headers, name, value, i);
      if i < |headers| {
        headers := headers[i := (name, value)];
      } else {
        headers := headers + [(name, value)];
      }
    }

    /** `setEntity(input)`, where `input` is `new StringEntity(text)` of type `application/json`. */
    method SetEntity(text: string)
      modifies this
      ensures payload == Some(Payload(text, JsonType)) && headers == old(headers)
    {
      payload := Some(Payload(text, JsonType));
    }

    /** The request as the HTTP client receives it. */
    function Sent(): (m: Message)
      reads this
      ensures m.verb == verb && m.url == url && m.headers == headers && m.payload == payload
    {
      Message(verb, url, headers, payload)
    }
  }

  /** The query string of GET and POST: a null position or size is sent as -1, a null type as "". */
  function Query(position: Option<Int>, size: Option<Int>, resourceType: Option<string>): string {
    "?position=" + LongText(position.GetOr(-1)) + "&size=" + LongText(size.GetOr(-1)) +
    "&type=" + resourceType.GetOr("")
  }

  /** The query string, built with `+=` as `getJSON` and `postJSON` do. */
  method QueryString(position: Option<Int>, size: Option<Int>, resourceType: Option<string>) returns (q: string)
    ensures q == Query(position, size, resourceType)
  {
    q := "?position=" + LongText(if position.Some? then position.value else -1);
    q := q + "&size=" + LongText(if size.Some? then size.value else -1);
    q := q + "&type=" + (if resourceType.Some? then resourceType.value else "");
  }

  /** The index of the first `&` of `s`, or `|s|` when there is none. */
  function AmpIndex(s: string): (i: nat)
    ensures i <= |s|
  {
    if |s| == 0 || s[0] == '&' then 0 else 1 + AmpIndex(s[1..])
  }

  /** Text without `&`, followed by text that starts with `&`, splits there. */
  lemma {:induction false} AmpIndexAfter(a: string, b: string)
    requires forall i :: 0 <= i < |a| ==> a[i] != '&'
    requires |b| > 0 && b[0] == '&'
    ensures AmpIndex(a + b) == |a|
  {
    if |a| > 0 {
      assert (a + b)[1..] == a[1..] + b;
      AmpIndexAfter(a[1..], b);
    } else {
      assert a + b == b;
    }
  }

  /** The text after `prefix`, when `s` starts with it. */
  function After(prefix: string, s: string): Option<string> {
    if |s| < |prefix| || s[..|prefix|] != prefix then None else Some(s[|prefix|..])
  }

  /** A decimal number up to the next `&`, and the text from that `&` on. */
  function ReadNumber(s: string): Option<(int, string)> {
    var i := AmpIndex(s);
    if i == |s| then None
    else
      var n :- ParseDecimal(s[..i]);
      Some((n, s[i..]))
  }

  /** Reads a query string back into position, size and type: the inverse of `Query`. */
  function ReadQuery(q: string): Option<(int, int, string)> {
    var afterPosition :- After("?position=", q);
    var position :- ReadNumber(afterPosition);
    var afterSize :- After("&size=", position.1);
    var size :- ReadNumber(afterSize);
    var resourceType :- After("&type=", size.1);
    Some((position.0, size.0, resourceType))
  }

  /** Stripping a prefix from text that starts with it leaves the rest. */
  lemma AfterPrefix(prefix: string, rest: string)
    ensures After(prefix, prefix + rest) == Some(rest)
  {
    assert (prefix + rest)[..|prefix|] == prefix;
  }

  /** A number's decimal text has no `&`, so it reads back as the number up to the next `&`. */
  lemma ReadField(n: int, rest: string)
    requires |rest| > 0 && rest[0] == '&'
    ensures ReadNumber(LongText(n) + rest) == Some((n, rest))
  {
    var s := LongText(n);
    assert forall i :: 0 <= i < |s| ==> s[i] != '&' by {
      forall i | 0 <= i < |s| ensures s[i] != '&' {
        assert IsDigit(s[i]) || s[i] == '-';
      }
    }
    AmpIndexAfter(s, rest);
    ParseLongText(n);
    assert (s + rest)[..|s|] == s;
    assert (s + rest)[|s|..] == rest;
  }

  /** `ReadQuery` succeeds when each of its five steps does, with the numbers and the type they read. */
  lemma ReadQuerySteps(q: string, afterPosition: string, position: int, afterNumber: string, afterSize: string,
                       size: int, afterSecond: string, resourceType: string)
    requires After("?position=", q) == Some(afterPosition)
    requires ReadNumber(afterPosition) == Some((position, afterNumber))
    requires After("&size=", afterNumber) == Some(afterSize)
    requires ReadNumber(afterSize) == Some((size, afterSecond))
    requires After("&type=", afterSecond) == Some(resourceType)
    ensures ReadQuery(q) == Some((position, size, resourceType))
  {
  }

  /** Concatenation regrouped to the right. */
  lemma {:induction false} QueryShape(a: string, p: string, b: string, s: string, c: string, t: string)
    ensures a + p + b + s + c + t == a + (p + (b + (s + (c + t))))
  {
    assert a + p + b + s + c + t == (a + p + b + s) + (c + t);
    assert (a + p + b + s) + (c + t) == (a + p + b) + (s + (c + t));
    assert (a + p + b) + (s + (c + t)) == (a + p) + (b + (s + (c + t)));
  }

  /** The query string reads back as the position, the size and the type with their defaults. */
  lemma QueryReadsBack(position: Option<Int>, size: Option<Int>, resourceType: Option<string>)
    ensures ReadQuery(Query(position, size, resourceType)) ==
      Some((position.GetOr(-1) as int, size.GetOr(-1) as int, resourceType.GetOr("")))
  {
    var p := LongText(position.GetOr(-1));
    var s := LongText(size.GetOr(-1));
    var t := resourceType.GetOr("");
    var tail := "&type=" + t;
    var middle := "&size=" + (s + tail);
    QueryShape("?position=", p, "&size=", s, "&type=", t);
    AfterPrefix("?position=", p + middle);
    ReadField(position.GetOr(-1), middle);
    AfterPrefix("&size=", s + tail);
    ReadField(size.GetOr(-1), tail);
    AfterPrefix("&type=", t);
    ReadQuerySteps(Query(position, size, resourceType), p + middle, position.GetOr(-1), middle,
      s + tail, size.GetOr(-1), tail, t);
  }

  /** `getJSON` and `postJSON` send to `host + service + queryString`. */
  function QueryUrl(host: string, service: string, position: Option<Int>, size: Option<Int>, resourceType: Option<string>): string {
    host + service + Query(position, size, resourceType)
  }

  /**
   * How `getJSON`, `postJSON` and `deleteJSON` end: status 200 returns the body, 403
   * throws `SecurityException`, any other status throws `SocialServiceException` with
   * "Error validating " and the status line, and an I/O failure is re-thrown as a
   * `SocialServiceException` with its message.
   */
  function Classify(e: Exchange): Outcome<string> {
    match e
    case IoFailure(m) => ServiceFailure(m)
    case Answered(status, line, body) =>
      if status == StatusOk then Returned(body)
      else if status == StatusForbidden then SecurityFailure
      else ServiceFailure(Some("Error validating " + line))
  }

  /**
   * How `putJSON` ends: its `catch (Exception e)` also catches the `SecurityException`
   * thrown for 403 and re-throws it as a `SocialServiceException` with its (null) message;
   * the other outcomes keep their message.
   */
  function PutClassify(e: Exchange): Outcome<string> {
    match Classify(e)
    case SecurityFailure => ServiceFailure(None)
    case other => other
  }

  /** The outcome of each status: 200 is the only success, 403 the only security failure. */
  lemma ClassifyStatus(e: Exchange)
    ensures Classify(e).Returned? <==> e.Answered? && e.status == StatusOk
    ensures Classify(e).Returned? ==> Classify(e).value == e.body
    ensures Classify(e).SecurityFailure? <==> e.Answered? && e.status == StatusForbidden
    ensures e.Answered? && e.status != StatusOk && e.status != StatusForbidden ==>
      Classify(e) == ServiceFailure(Some("Error validating " + e.statusLine))
    ensures e.IoFailure? ==> Classify(e) == ServiceFailure(e.message)
  {
  }

  /** A PUT never ends in `SecurityException`: a 403 surfaces as a service failure; everything else as in `Classify`. */
  lemma PutNeverSecurity(e: Exchange)
    ensures !PutClassify(e).SecurityFailure?
    ensures e.Answered? && e.status == StatusForbidden ==> PutClassify(e) == ServiceFailure(None)
    ensures !(e.Answered? && e.status == StatusForbidden) ==> PutClassify(e) == Classify(e)
  {
  }

  /** The GET request of `getJSON`. */
  function GetMessage(host: string, service: string, token: string, position: Option<Int>, size: Option<Int>,
                      resourceType: Option<string>): Message {
    Message(HttpGet, QueryUrl(host, service, position, size, resourceType), Headers(token), None)
  }

  /** The POST request of `postJSON`. */
  function PostMessage(host: string, service: string, body: string, token: string, position: Option<Int>,
                       size: Option<Int>, resourceType: Option<string>): Message {
    Message(HttpPost, QueryUrl(host, service, position, size, resourceType), Headers(token), Some(Payload(body, JsonType)))
  }

  /** `getJSON`. */
  method GetJson(host: string, service: string, token: string, position: Option<Int>, size: Option<Int>,
                 resourceType: Option<string>, execute: Message -> Exchange) returns (r: Outcome<string>)
    ensures r == Classify(execute(GetMessage(host, service, token, position, size, resourceType)))
  {
    var queryString := QueryString(position, size, resourceType);
    var get := new Request(HttpGet, host + service + queryString);
    get.SetHeader(AcceptHeader, JsonType);
    get.SetHeader(AuthTokenHeader, token);
    HeadersCarryToken(token);
    var response := execute(get.Sent());
    r := Classify(response);
  }

  /** `postJSON`. */
  method PostJson(host: string, service: string, body: string, token: string, position: Option<Int>,
                  size: Option<Int>, resourceType: Option<string>, execute: Message -> Exchange) returns (r: Outcome<string>)
    ensures r == Classify(execute(PostMessage(host, service, body, token, position, size, resourceType)))
  {
    var queryString := QueryString(position, size, resourceType);
    var post := new Request(HttpPost, host + service + queryString);
    post.SetHeader(AcceptHeader, JsonType);
    post.SetHeader(AuthTokenHeader, token);
    HeadersCarryToken(token);
    post.SetEntity(body);
    var response := execute(post.Sent());
    r := Classify(response);
  }

  /** `putJSON`: no query string, and every failure re-thrown as a `SocialServiceException`. */
  method PutJson(host: string, service: string, body: string, token: string, execute: Message -> Exchange)
    returns (r: Outcome<string>)
    ensures r == PutClassify(execute(Message(HttpPut, host + service, Headers(token), Some(Payload(body, JsonType)))))
  {
    var put := new Request(HttpPut, host + service);
    put.SetHeader(AcceptHeader, JsonType);
    put.SetHeader(AuthTokenHeader, token);
    HeadersCarryToken(token);
    put.SetEntity(body);
    var response := execute(put.Sent());
    r := PutClassify(response);
  }

  /** `deleteJSON`: no query string and no body. */
  method DeleteJson(host: string, service: string, token: string, execute: Message -> Exchange) returns (r: Outcome<string>)
    ensures r == Classify(execute(Message(HttpDelete, host + service, Headers(token), None)))
  {
    var delete := new Request(HttpDelete, host + service);
    delete.SetHeader(AcceptHeader, JsonType);
    delete.SetHeader(AuthTokenHeader, token);
    HeadersCarryToken(token);
    var response := execute(delete.Sent());
    r := Classify(response);
  }

  /** `getGroups`: GET the group collection, decoded by `Group.toList`. */
  method GetGroups(c: Codec, host: string, token: string, execute: Message -> Exchange)
    returns (r: Outcome<Option<seq<Option<Group>>>>)
    ensures r == Decoded(Classify(execute(GetMessage(host, Collection(GroupResource), token, None, None, None))),
      Scan.ListDecoder(c.parse, c.quote, GroupCodec.Decoder(c)))
  {
    var json :- GetJson(host, Collection(GroupResource), token, None, None, None, execute);
    var groups := GroupCodec.ToList(c, json);
    r := Returned(groups);
  }

  /** `getGroup`: GET one group, at the group path followed by its id, decoded by `Group.toObject`. */
  method GetGroup(c: Codec, host: string, token: string, groupId: string, execute: Message -> Exchange)
    returns (r: Outcome<Option<Group>>)
    ensures r == Decoded(Classify(execute(GetMessage(host, Path(GroupResource, groupId), token, None, None, None))),
      GroupCodec.Decoder(c))
  {
    var json :- GetJson(host, Path(GroupResource, groupId), token, None, None, None, execute);
    var group := GroupCodec.ToObject(c, json);
    r := Returned(group);
  }

  /**
   * `getCommunity`: GET one community at the community path followed by its id, decoded
   * by `Community.toObject` (not part of this model, so the decoder is a parameter).
   */
  method GetCommunity(host: string, token: string, communityId: string, decodeCommunity: string -> Option<Community>,
                      execute: Message -> Exchange) returns (r: Outcome<Option<Community>>)
    ensures r == Decoded(Classify(execute(GetMessage(host, Path(CommunityResource, communityId), token, None, None, None))),
      decodeCommunity)
  {
    var json :- GetJson(host, Path(CommunityResource, communityId), token, None, None, None, execute);
    r := Returned(decodeCommunity(json));
  }

  /** `getCommunities`: GET the community collection, decoded by `Community.toList`. */
  method GetCommunities(c: Codec, host: string, token: string, execute: Message -> Exchange)
    returns (r: Outcome<Option<seq<Community>>>)
    ensures r == Decoded(Classify(execute(GetMessage(host, Collection(CommunityResource), token, None, None, None))),
      c.communityList)
  {
    var json :- GetJson(host, Collection(CommunityResource), token, None, None, None, execute);
    r := Returned(c.communityList(json));
  }

  /** `getTopics`: GET the topic collection, decoded by `Topic.toList`. */
  method GetTopics(c: Codec, host: string, token: string, execute: Message -> Exchange)
    returns (r: Outcome<Option<seq<Option<Topic>>>>)
    ensures r == Decoded(Classify(execute(GetMessage(host, Collection(TopicResource), token, None, None, None))),
      Scan.ListDecoder(c.parse, c.quote, TopicCodec.Decoder(c)))
  {
    var json :- GetJson(host, Collection(TopicResource), token, None, None, None, execute);
    var topics := TopicCodec.ToList(c, json);
    r := Returned(topics);
  }

  /** `getTopic`: GET one topic by id, decoded by `Topic.toObject`. */
  method GetTopic(c: Codec, host: string, token: string, topicId: string, execute: Message -> Exchange)
    returns (r: Outcome<Option<Topic>>)
    ensures r == Decoded(Classify(execute(GetMessage(host, Path(TopicResource, topicId), token, None, None, None))),
      TopicCodec.Decoder(c))
  {
    var json :- GetJson(host, Path(TopicResource, topicId), token, None, None, None, execute);
    var topic := TopicCodec.ToObject(c, json);
    r := Returned(topic);
  }

  /** `getShareVisibility`: GET the visibility of an entity, at the assignments path followed by its id. */
  method GetShareVisibility(c: Codec, host: string, token: string, entityId: Long, execute: Message -> Exchange)
    returns (r: Outcome<Option<ShareVisibility>>)
    ensures r == Decoded(Classify(execute(GetMessage(host, NumberedPath(VisibilityResource, entityId), token, None, None, None))),
      ShareVisibilityCodec.Decoder(c))
  {
    var json :- GetJson(host, NumberedPath(VisibilityResource, entityId), token, None, None, None, execute);
    var visibility := ShareVisibilityCodec.ToObject(c, json);
    r := Returned(visibility);
  }

  /** `getMyContents`: GET the user's contents with the paging and type query, decoded by `SharedContent.toList`. */
  method GetMyContents(c: Codec, host: string, token: string, position: Option<Int>, size: Option<Int>,
                       resourceType: Option<string>, execute: Message -> Exchange)
    returns (r: Outcome<Option<seq<Option<SharedContent>>>>)
    ensures r == Decoded(Classify(execute(GetMessage(host, Collection(MyContentsResource), token, position, size, resourceType))),
      Scan.ListDecoder(c.parse, c.quote, SharedContentCodec.Decoder(c)))
  {
    var json :- GetJson(host, Collection(MyContentsResource), token, position, size, resourceType, execute);
    var contents := SharedContentCodec.ToList(c, json);
    r := Returned(contents);
  }

  /**
   * `getSharedContents`: POST `ShareVisibility.toJson(v)` with the paging and type query,
   * decoded by `SharedContent.toList`.
   */
  method GetSharedContents(c: Codec, host: string, token: string, v: ShareVisibility, position: Option<Int>,
                           size: Option<Int>, resourceType: Option<string>, execute: Message -> Exchange)
    returns (r: Outcome<Option<seq<Option<SharedContent>>>>)
    ensures forall quote :: Json.QuotesPlain(quote) ==>
      r == Decoded(Classify(execute(PostMessage(host, Collection(SharedContentResource),
        Json.Print(quote, ShareVisibilityCodec.Document(v)), token, position, size, resourceType))),
        Scan.ListDecoder(c.parse, c.quote, SharedContentCodec.Decoder(c)))
  {
    var body := ShareVisibilityCodec.ToJson(v);
    var json :- PostJson(host, Collection(SharedContentResource), body, token, position, size, resourceType, execute);
    var contents := SharedContentCodec.ToList(c, json);
    r := Returned(contents);
  }

  /**
   * `share`: POST the text `ShareOperation.toJson` wrote (`ShareOperation` is not part of
   * this model, so the text is a parameter); true exactly when the answer is "true" in any case.
   */
  method Share(host: string, token: string, operation: string, execute: Message -> Exchange) returns (r: Outcome<bool>)
    ensures r == Decoded(Classify(execute(PostMessage(host, Collection(ShareResource), operation, token, None, None, None))),
      ParseBoolean)
  {
    var json :- PostJson(host, Collection(ShareResource), operation, token, None, None, None, execute);
    r := Returned(ParseBoolean(json));
  }

  /** `unshare`: PUT an empty body at the unshare path followed by the entity id; true exactly for "true" in any case. */
  method Unshare(host: string, token: string, entityId: Long, execute: Message -> Exchange) returns (r: Outcome<bool>)
    ensures r == Decoded(PutClassify(execute(Message(HttpPut, host + NumberedPath(UnshareResource, entityId),
      Headers(token), Some(Payload("", JsonType))))), ParseBoolean)
  {
    var json :- PutJson(host, NumberedPath(UnshareResource, entityId), "", token, execute);
    r := Returned(ParseBoolean(json));
  }

  /** An unshare answered with the JSON string literal `"true"` (quotes included) reports false. */
  lemma QuotedTrueIsFalse(host: string, token: string, entityId: Long, execute: Message -> Exchange)
    requires execute(Message(HttpPut, host + NumberedPath(UnshareResource, entityId), Headers(token),
      Some(Payload("", JsonType)))) == Answered(StatusOk, "HTTP/1.1 200 OK", "\"true\"")
    ensures Decoded(PutClassify(execute(Message(HttpPut, host + NumberedPath(UnshareResource, entityId),
      Headers(token), Some(Payload("", JsonType))))), ParseBoolean) == Returned(false)
  {
    ParseBooleanText(true);
  }
}
