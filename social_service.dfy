/**
 * `SocialService`: the client façade. Each call builds the path of its resource, hands
 * it to the transport of `eu.trentorise.smartcampus.network.RemoteConnector` (a class
 * outside this model, so it is a parameter here) and decodes the text it answers with.
 */
module SocialServiceApi {
  import opened Wrappers
  import opened Decimal
  import opened JavaLang
  import opened Outcomes
  import opened Paths
  import opened Model
  import Json
  import Scan
  import RemoteConnector
  import GroupCodec
  import TopicCodec
  import ShareVisibilityCodec
  import SharedContentCodec
  import EntityTypeCodec
  import ConceptCodec
  import EntityCodec

  /** A value of the parameters map: an `Integer`, a `Long`, or null. */
  datatype Param = IntParam(i: Int) | LongParam(l: Long) | NullParam

  /**
   * A call of the transport: `getJSON(host, path, token, parameters)`,
   * `postJSON(host, path, body, token, parameters)`, `putJSON(host, path, body, token)`
   * or `deleteJSON(host, path, token)`; `None` stands for a null body or a null map.
   */
  datatype Call =
    | Get(host: string, path: string, token: string, parameters: Option<map<string, Param>>)
    | Post(host: string, path: string, body: Option<string>, token: string, parameters: Option<map<string, Param>>)
    | Put(host: string, path: string, body: Option<string>, token: string)
    | Delete(host: string, path: string, token: string)

  /**
   * How a transport call ends: the text of the answer, a `SecurityException`, or a
   * `RemoteException` (or any other exception) with its message.
   */
  datatype Reply = Body(text: string) | Forbidden | RemoteError(message: Option<string>)

  /**
   * The `try`/`catch` around each call: a `RemoteException` becomes a
   * `SocialServiceException` with the cause's message; a `SecurityException` passes
   * through, unless the call catches every `Exception` (`catchesAll`), which wraps it too.
   */
  function Received(reply: Reply, catchesAll: bool): Outcome<string> {
    match reply
    case Body(text) => Returned(text)
    case Forbidden => if catchesAll then ServiceFailure(None) else SecurityFailure
    case RemoteError(m) => ServiceFailure(m)
  }

  /**
   * Every transport error ends as a service failure with its message; a security failure
   * surfaces only from a call that catches `RemoteException` alone; the answer passes unchanged.
   */
  lemma ReceivedOutcomes(reply: Reply, catchesAll: bool)
    ensures Received(reply, catchesAll).Returned? <==> reply.Body?
    ensures reply.Body? ==> Received(reply, catchesAll).value == reply.text
    ensures Received(reply, catchesAll).SecurityFailure? <==> reply.Forbidden? && !catchesAll
    ensures reply.RemoteError? ==> Received(reply, catchesAll) == ServiceFailure(reply.message)
  {
  }

  /** The answers that read as true: a body equal to "true" in any letter case, and nothing else. */
  lemma BooleanAnswer(reply: Reply, catchesAll: bool)
    ensures Decoded(Received(reply, catchesAll), ParseBoolean) == Returned(true) <==>
      reply.Body? && EqualsIgnoreCase(reply.text, "true")
    ensures reply == Body("\"true\"") ==> Decoded(Received(reply, catchesAll), ParseBoolean) == Returned(false)
  {
    ParseBooleanText(true);
  }

  /**
   * The paging parameters of `getSharedContents` and `getMyContents`: position and size,
   * -1 when null, and the type id, put even when it is null.
   */
  function Paging(position: Option<Int>, size: Option<Int>, typeId: Option<Long>): map<string, Param> {
    map["position" := IntParam(position.GetOr(-1)), "size" := IntParam(size.GetOr(-1)),
        "type" := if typeId.Some? then LongParam(typeId.value) else NullParam]
  }

  /** The paging map, built as the source does: reassigning the null arguments, then three `put`s. */
  method PagingParameters(position: Option<Int>, size: Option<Int>, typeId: Option<Long>)
    returns (parameters: map<string, Param>)
    ensures parameters == Paging(position, size, typeId)
  {
    parameters := map[];
    var p := position;
    if p.None? {
      p := Some(-1);
    }
    var s := size;
    if s.None? {
      s := Some(-1);
    }
    parameters := parameters["position" := IntParam(p.value)];
    parameters := parameters["size" := IntParam(s.value)];
    parameters := parameters["type" := if typeId.Some? then LongParam(typeId.value) else NullParam];
  }

  /**
   * A null position or size is the same request as -1; a given one is sent as it is; the
   * type key is always present, null exactly when the type id is.
   */
  lemma PagingDefaults(position: Option<Int>, size: Option<Int>, typeId: Option<Long>)
    ensures Paging(None, size, typeId) == Paging(Some(-1), size, typeId)
    ensures Paging(position, None, typeId) == Paging(position, Some(-1), typeId)
    ensures position.Some? ==> Paging(position, size, typeId)["position"] == IntParam(position.value)
    ensures size.Some? ==> Paging(position, size, typeId)["size"] == IntParam(size.value)
    ensures "type" in Paging(position, size, typeId)
    ensures Paging(position, size, typeId)["type"] == NullParam <==> typeId.None?
    ensures Paging(position, size, typeId).Keys == {"position", "size", "type"}
  {
  }

  /**
   * The façade defaults position and size as this package's own connector does in its
   * query string: both send the given value, or -1 for null.
   */
  lemma PagingAgreesWithQuery(position: Option<Int>, size: Option<Int>, typeId: Option<Long>, resourceType: Option<string>)
    ensures Paging(position, size, typeId)["position"].IntParam? && Paging(position, size, typeId)["size"].IntParam?
    ensures RemoteConnector.ReadQuery(RemoteConnector.Query(position, size, resourceType)) ==
      Some((Paging(position, size, typeId)["position"].i as int, Paging(position, size, typeId)["size"].i as int,
        resourceType.GetOr("")))
  {
    RemoteConnector.QueryReadsBack(position, size, resourceType);
  }

  /** The `maxResults` parameter of the prefix lookups, put even when it is null. */
  function Limit(maxResults: Option<Int>): (p: map<string, Param>)
    ensures p.Keys == {"maxResults"}
    ensures p["maxResults"] == NullParam <==> maxResults.None?
    ensures maxResults.Some? ==> p["maxResults"] == IntParam(maxResults.value)
  {
    map["maxResults" := if maxResults.Some? then IntParam(maxResults.value) else NullParam]
  }

  /** The text `Entity.toJson` writes, null for a null entity. */
  function EntityText(c: Codec, e: Option<Entity>): (r: Option<string>)
    ensures r.None? <==> e.None?
    ensures r.Some? ==> r.value == EntityCodec.JsonText(c, e.value)
  {
    if e.None? then None else Some(EntityCodec.JsonText(c, e.value))
  }

  /** The decoder of `EntityType.toObject`. */
  function EntityTypeDecoder(c: Codec): string -> Option<EntityType> {
    s => EntityTypeCodec.ToObject(c, s)
  }

  /** A client of one service URL; it never changes after construction. */
  class SocialService {
    const serviceUrl: string

    constructor (serviceUrl: string)
      ensures this.serviceUrl == serviceUrl
    {
      this.serviceUrl := serviceUrl;
    }

    /** `getGroups`: GET the group collection, decoded by `Group.toList`. */
    method GetGroups(c: Codec, token: string, transport: Call -> Reply)
      returns (r: Outcome<Option<seq<Option<Group>>>>)
      ensures r == Decoded(Received(transport(Get(serviceUrl, Collection(GroupResource), token, None)), false),
        Scan.ListDecoder(c.parse, c.quote, GroupCodec.Decoder(c)))
    {
      var json :- Received(transport(Get(serviceUrl, Collection(GroupResource), token, None)), false);
      var groups := GroupCodec.ToList(c, json);
      r := Returned(groups);
    }

    /** `getGroup`: GET one group at the group path followed by its id, decoded by `Group.toObject`. */
    method GetGroup(c: Codec, groupId: string, token: string, transport: Call -> Reply)
      returns (r: Outcome<Option<Group>>)
      ensures r == Decoded(Received(transport(Get(serviceUrl, Path(GroupResource, groupId), token, None)), false),
        GroupCodec.Decoder(c))
    {
      var json :- Received(transport(Get(serviceUrl, Path(GroupResource, groupId), token, None)), false);
      var group := GroupCodec.ToObject(c, json);
      r := Returned(group);
    }

    /**
     * `getCommunity`: GET one community by id, decoded by `Community.toObject` (not part
     * of this model, so the decoder is a parameter).
     */
    method GetCommunity(communityId: string, token: string, decodeCommunity: string -> Option<Community>,
                        transport: Call -> Reply) returns (r: Outcome<Option<Community>>)
      ensures r == Decoded(Received(transport(Get(serviceUrl, Path(CommunityResource, communityId), token, None)), false),
        decodeCommunity)
    {
      var json :- Received(transport(Get(serviceUrl, Path(CommunityResource, communityId), token, None)), false);
      r := Returned(decodeCommunity(json));
    }

    /** `getCommunities`: GET the community collection, decoded by `Community.toList`. */
    method GetCommunities(c: Codec, token: string, transport: Call -> Reply) returns (r: Outcome<Option<seq<Community>>>)
      ensures r == Decoded(Received(transport(Get(serviceUrl, Collection(CommunityResource), token, None)), false),
        c.communityList)
    {
      var json :- Received(transport(Get(serviceUrl, Collection(CommunityResource), token, None)), false);
      r := Returned(c.communityList(json));
    }

    /** `getTopics`: GET the topic collection, decoded by `Topic.toList`. */
    method GetTopics(c: Codec, token: string, transport: Call -> Reply)
      returns (r: Outcome<Option<seq<Option<Topic>>>>)
      ensures r == Decoded(Received(transport(Get(serviceUrl, Collection(TopicResource), token, None)), false),
        Scan.ListDecoder(c.parse, c.quote, TopicCodec.Decoder(c)))
    {
      var json :- Received(transport(Get(serviceUrl, Collection(TopicResource), token, None)), false);
      var topics := TopicCodec.ToList(c, json);
      r := Returned(topics);
    }

    /** `getTopic`: GET one topic at the topic path followed by its id, decoded by `Topic.toObject`. */
    method GetTopic(c: Codec, token: string, topicId: string, transport: Call -> Reply)
      returns (r: Outcome<Option<Topic>>)
      ensures r == Decoded(Received(transport(Get(serviceUrl, Path(TopicResource, topicId), token, None)), false),
        TopicCodec.Decoder(c))
    {
      var json :- Received(transport(Get(serviceUrl, Path(TopicResource, topicId), token, None)), false);
      var topic := TopicCodec.ToObject(c, json);
      r := Returned(topic);
    }

    /**
     * `share`: POST the text `ShareOperation.toJson` wrote (`ShareOperation` is not part
     * of this model, so the text is a parameter); true exactly for "true" in any case.
     */
    method Share(token: string, operation: Option<string>, transport: Call -> Reply) returns (r: Outcome<bool>)
      ensures r == Decoded(Received(transport(Post(serviceUrl, Collection(ShareResource), operation, token, None)), false),
        ParseBoolean)
    {
      var json :- Received(transport(Post(serviceUrl, Collection(ShareResource), operation, token, None)), false);
      r := Returned(ParseBoolean(json));
    }

    /** `unshare`: PUT an empty body at the unshare path followed by the entity id; true exactly for "true" in any case. */
    method Unshare(token: string, entityId: Long, transport: Call -> Reply) returns (r: Outcome<bool>)
      ensures r == Decoded(Received(transport(Put(serviceUrl, NumberedPath(UnshareResource, entityId), Some(""), token)), false),
        ParseBoolean)
    {
      var json :- Received(transport(Put(serviceUrl, NumberedPath(UnshareResource, entityId), Some(""), token)), false);
      r := Returned(ParseBoolean(json));
    }

    /**
     * `getSharedContents`: POST `ShareVisibility.toJson(v)` with the paging parameters,
     * decoded by `SharedContent.toList`.
     */
    method GetSharedContents(c: Codec, token: string, v: ShareVisibility, position: Option<Int>, size: Option<Int>,
                             typeId: Option<Long>, transport: Call -> Reply)
      returns (r: Outcome<Option<seq<Option<SharedContent>>>>)
      ensures forall quote :: Json.QuotesPlain(quote) ==>
        r == Decoded(Received(transport(Post(serviceUrl, Collection(SharedContentResource),
          Some(Json.Print(quote, ShareVisibilityCodec.Document(v))), token, Some(Paging(position, size, typeId)))), false),
          Scan.ListDecoder(c.parse, c.quote, SharedContentCodec.Decoder(c)))
    {
      var parameters := PagingParameters(position, size, typeId);
      var body := ShareVisibilityCodec.ToJson(v);
      var json :- Received(transport(Post(serviceUrl, Collection(SharedContentResource), Some(body), token,
        Some(parameters))), false);
      var contents := SharedContentCodec.ToList(c, json);
      r := Returned(contents);
    }

    /** `getMyContents`: GET the user's contents with the paging parameters, decoded by `SharedContent.toList`. */
    method GetMyContents(c: Codec, token: string, position: Option<Int>, size: Option<Int>, typeId: Option<Long>,
                         transport: Call -> Reply)
      returns (r: Outcome<Option<seq<Option<SharedContent>>>>)
      ensures r == Decoded(Received(transport(Get(serviceUrl, Collection(MyContentsResource), token,
        Some(Paging(position, size, typeId)))), false), Scan.ListDecoder(c.parse, c.quote, SharedContentCodec.Decoder(c)))
    {
      var parameters := PagingParameters(position, size, typeId);
      var json :- Received(transport(Get(serviceUrl, Collection(MyContentsResource), token, Some(parameters))), false);
      var contents := SharedContentCodec.ToList(c, json);
      r := Returned(contents);
    }

    /** `getShareVisibility`: GET the visibility at the assignments path followed by the entity id. */
    method GetShareVisibility(c: Codec, token: string, entityId: Long, transport: Call -> Reply)
      returns (r: Outcome<Option<ShareVisibility>>)
      ensures r == Decoded(Received(transport(Get(serviceUrl, NumberedPath(VisibilityResource, entityId), token, None)), false),
        ShareVisibilityCodec.Decoder(c))
    {
      var json :- Received(transport(Get(serviceUrl, NumberedPath(VisibilityResource, entityId), token, None)), false);
      var visibility := ShareVisibilityCodec.ToObject(c, json);
      r := Returned(visibility);
    }

    /** `createEntityType`: POST an empty body at the entity-type path followed by the concept id. */
    method CreateEntityType(c: Codec, token: string, conceptId: Long, transport: Call -> Reply)
      returns (r: Outcome<Option<EntityType>>)
      ensures r == Decoded(Received(transport(Post(serviceUrl, NumberedPath(CreateEntityTypeResource, conceptId), Some(""),
        token, None)), false), EntityTypeDecoder(c))
    {
      var json :- Received(transport(Post(serviceUrl, NumberedPath(CreateEntityTypeResource, conceptId), Some(""),
        token, None)), false);
      r := Returned(EntityTypeCodec.ToObject(c, json));
    }

    /** `getEntityTypeById`: GET the entity type at its id. */
    method GetEntityTypeById(c: Codec, token: string, entityTypeId: Long, transport: Call -> Reply)
      returns (r: Outcome<Option<EntityType>>)
      ensures r == Decoded(Received(transport(Get(serviceUrl, NumberedPath(EntityTypeByIdResource, entityTypeId), token,
        None)), false), EntityTypeDecoder(c))
    {
      var json :- Received(transport(Get(serviceUrl, NumberedPath(EntityTypeByIdResource, entityTypeId), token, None)), false);
      r := Returned(EntityTypeCodec.ToObject(c, json));
    }

    /** `getEntityTypeByConceptId`: GET the entity type of a concept. */
    method GetEntityTypeByConceptId(c: Codec, token: string, conceptId: Long, transport: Call -> Reply)
      returns (r: Outcome<Option<EntityType>>)
      ensures r == Decoded(Received(transport(Get(serviceUrl, NumberedPath(EntityTypeByConceptIdResource, conceptId), token,
        None)), false), EntityTypeDecoder(c))
    {
      var json :- Received(transport(Get(serviceUrl, NumberedPath(EntityTypeByConceptIdResource, conceptId), token,
        None)), false);
      r := Returned(EntityTypeCodec.ToObject(c, json));
    }

    /**
     * `getEntityTypeByPrefix`: GET the types whose name starts with the URL-encoded prefix,
     * at most `maxResults`; `EntityType.toList` and `URLEncoder.encode` are parameters, and
     * every exception, a `SecurityException` included, is wrapped. A null prefix makes
     * `URLEncoder.encode` throw a `NullPointerException` before any request; it is wrapped too.
     */
    method GetEntityTypeByPrefix(token: string, prefix: Option<string>, maxResults: Option<Int>, urlEncode: string -> string,
                                 decodeTypes: string -> Option<seq<Option<EntityType>>>, transport: Call -> Reply)
      returns (r: Outcome<Option<seq<Option<EntityType>>>>)
      ensures prefix.None? ==> r == ServiceFailure(None)
      ensures prefix.Some? ==> r == Decoded(Received(transport(Get(serviceUrl, Path(EntityTypeByPrefixResource,
        urlEncode(prefix.value)), token, Some(Limit(maxResults)))), true), decodeTypes)
    {
      var parameters := map[];
      parameters := parameters["maxResults" := if maxResults.Some? then IntParam(maxResults.value) else NullParam];
      if prefix.None? {
        return ServiceFailure(None);
      }
      var encoded := urlEncode(prefix.value);
      var json :- Received(transport(Get(serviceUrl, Path(EntityTypeByPrefixResource, encoded), token, Some(parameters))), true);
      r := Returned(decodeTypes(json));
    }

    /**
     * `getConceptByPrefix`: GET the concepts suggested for the URL-encoded prefix, decoded by
     * `Concept.toList`; a null prefix fails in `URLEncoder.encode`, wrapped like every exception.
     */
    method GetConceptByPrefix(c: Codec, token: string, prefix: Option<string>, maxResults: Option<Int>,
                              urlEncode: string -> string, transport: Call -> Reply)
      returns (r: Outcome<Option<seq<Option<Concept>>>>)
      ensures prefix.None? ==> r == ServiceFailure(None)
      ensures prefix.Some? ==> r == Decoded(Received(transport(Get(serviceUrl, Path(ConceptsResource, urlEncode(prefix.value)),
        token, Some(Limit(maxResults)))), true), Scan.ListDecoder(c.parse, c.quote, ConceptCodec.Decoder(c)))
    {
      var parameters := map[];
      parameters := parameters["maxResults" := if maxResults.Some? then IntParam(maxResults.value) else NullParam];
      if prefix.None? {
        return ServiceFailure(None);
      }
      var encoded := urlEncode(prefix.value);
      var json :- Received(transport(Get(serviceUrl, Path(ConceptsResource, encoded), token, Some(parameters))), true);
      var concepts := ConceptCodec.ToList(c, json);
      r := Returned(concepts);
    }

    /** `createEntity`: POST `Entity.toJson(entity)` to the entity collection, decoded by `Entity.toObject`. */
    method CreateEntity(c: Codec, token: string, entity: Option<Entity>, transport: Call -> Reply)
      returns (r: Outcome<Option<Entity>>)
      ensures r == Decoded(Received(transport(Post(serviceUrl, Collection(EntityResource), EntityText(c, entity), token,
        None)), true), EntityCodec.Decoder(c))
    {
      var body := EntityCodec.ToJson(c, entity);
      var json :- Received(transport(Post(serviceUrl, Collection(EntityResource), body, token, None)), true);
      var created := EntityCodec.ToObject(c, json);
      r := Returned(created);
    }

    /** `deleteEntity`: DELETE the entity at its id; true exactly for "true" in any case. */
    method DeleteEntity(token: string, entityId: Long, transport: Call -> Reply) returns (r: Outcome<bool>)
      ensures r == Decoded(Received(transport(Delete(serviceUrl, NumberedPath(EntityResource, entityId), token)), true),
        ParseBoolean)
    {
      var json :- Received(transport(Delete(serviceUrl, NumberedPath(EntityResource, entityId), token)), true);
      r := Returned(ParseBoolean(json));
    }

    /** `updateEntity`: PUT `Entity.toJson(entity)` to the entity collection; true exactly for "true" in any case. */
    method UpdateEntity(c: Codec, token: string, entity: Option<Entity>, transport: Call -> Reply) returns (r: Outcome<bool>)
      ensures r == Decoded(Received(transport(Put(serviceUrl, Collection(EntityResource), EntityText(c, entity), token)), true),
        ParseBoolean)
    {
      var body := EntityCodec.ToJson(c, entity);
      var json :- Received(transport(Put(serviceUrl, Collection(EntityResource), body, token)), true);
      r := Returned(ParseBoolean(json));
    }
  }
}
