/**
 * The client's data model (the classes of the `model` package) as values, and the
 * library routines the encoders and decoders call but the model leaves open.
 *
 * Every Java reference field that may hold null is an `Option`. A `toObject` that
 * returns null is `None`; a list a `toList` fills holds `None` wherever the element
 * decoder returned null.
 */
module Model {
  import opened Wrappers
  import opened Decimal
  import opened Json

  /** `model.Community` is not part of this model: its decoder is a library routine. */
  type Community(==)

  /** `java.util.Date`, known by its epoch milliseconds (`getTime()`). */
  datatype Date = Date(millis: Long)

  datatype UserInformation = UserInformation(faculty: Option<string>, position: Option<string>)

  datatype Concept = Concept(id: Option<Long>, name: Option<string>, description: Option<string>, summary: Option<string>)

  /** `userId` and `socialId` come from the superclass `SCUser`, which is not part of this model; they are taken as `long`. */
  datatype MinimalProfile = MinimalProfile(
    userId: Long,
    socialId: Long,
    name: Option<string>,
    surname: Option<string>,
    userInformation: Option<UserInformation>,
    pictureUrl: Option<string>,
    known: bool)

  datatype Group = Group(socialId: Long, name: Option<string>, users: Option<seq<Option<MinimalProfile>>>)

  datatype ShareVisibility = ShareVisibility(
    userIds: Option<seq<Long>>,
    groupIds: Option<seq<Long>>,
    communityIds: Option<seq<Long>>,
    allKnownUsers: bool,
    allKnownCommunities: bool,
    allUsers: bool,
    allCommunities: bool)

  /** `Topic.TopicStatus`. */
  datatype TopicStatus = Active | Suspended

  datatype Topic = Topic(
    socialId: Long,
    name: Option<string>,
    status: Int,
    concepts: Option<seq<Option<Concept>>>,
    keywords: Option<seq<string>>,
    users: Option<seq<Option<MinimalProfile>>>,
    groups: Option<seq<Option<Group>>>,
    communities: Option<seq<Community>>,
    contentTypes: Option<seq<string>>,
    allKnownUsers: bool,
    allKnownCommunities: bool,
    allUsers: bool,
    allCommunities: bool,
    entities: Option<seq<Option<Concept>>>)

  /** The model `Entity`; its field `type` is called `typeName` here. */
  datatype Entity = Entity(
    id: Long,
    creatorId: Long,
    typeName: Option<string>,
    typeId: Long,
    name: Option<string>,
    description: Option<string>,
    tags: Option<seq<Option<Concept>>>,
    relations: Option<seq<Long>>)

  datatype SharedContent = SharedContent(
    entityId: Long,
    entityType: Option<string>,
    title: Option<string>,
    tags: Option<seq<Option<string>>>,
    ownerId: Long,
    creationDate: Option<Date>,
    user: Option<MinimalProfile>)

  datatype EntityType = EntityType(id: Long, name: Option<string>, concept: Option<Concept>)

  /** The Java values the encoders hand to Jackson (`JsonUtils.toJson`). */
  datatype JavaValue =
    | LongValue(n: Long)
    | IntegerValue(i: Int)
    | BooleanValue(b: bool)
    | StringValue(s: Option<string>)
    | LongList(longs: Option<seq<Long>>)
    | StringList(strings: Option<seq<string>>)
    | ConceptList(concepts: Option<seq<Option<Concept>>>)
    | ProfileList(profiles: Option<seq<Option<MinimalProfile>>>)
    | GroupList(groups: Option<seq<Option<Group>>>)
    | CommunityList(communities: Option<seq<Community>>)

  /**
   * The library routines behind the encoders and decoders, left open:
   *  - `parse`: the org.json text parser (`new JSONObject(s)`, `new JSONArray(s)`);
   *  - `quote`: `JSONObject.quote`, JSON string escaping;
   *  - `longOfText`, `intOfText`: what `getLong` and `getInt` make of a string value;
   *  - `jackson`: the document `JsonUtils.toJson(x)` writes, compactly, for the value `x`;
   *  - `jacksonQuote`: the string escaping of that writer, which differs from `JSONObject.quote`
   *    (Jackson writes `/`, U+0080 to U+009F and U+2000 to U+20FF as they are, where
   *    `JSONObject.quote` may escape them);
   *  - `userInformationJson`: the document `UserInformation.toJson` writes, `None` where it throws;
   *  - `communityList`: `Community.toList`.
   */
  datatype Codec = Codec(
    parse: string -> Option<Json>,
    quote: string -> string,
    longOfText: string -> Option<Long>,
    intOfText: string -> Option<Int>,
    jackson: JavaValue -> Json,
    jacksonQuote: string -> string,
    userInformationJson: Option<UserInformation> -> Option<Json>,
    communityList: string -> Option<seq<Community>>)

  /** `JsonUtils.toJson` of a Java string. */
  function StringDoc(s: Option<string>): Json {
    match s
    case None => JNull
    case Some(t) => JStr(t)
  }

  /**
   * Jackson writes scalars, strings and lists of ids and of strings as JSON does:
   * numbers, booleans, strings, arrays, and null for a null reference.
   */
  ghost predicate StandardScalars(jackson: JavaValue -> Json) {
    (forall n :: jackson(LongValue(n)) == JNum(n)) &&
    (forall i: Int :: jackson(IntegerValue(i)) == JNum(i)) &&
    (forall b :: jackson(BooleanValue(b)) == JBool(b)) &&
    (forall s :: jackson(StringValue(s)) == StringDoc(s)) &&
    jackson(LongList(None)) == JNull &&
    (forall ns :: jackson(LongList(Some(ns))) == JArr(Nums(ns))) &&
    jackson(StringList(None)) == JNull &&
    (forall ss :: jackson(StringList(Some(ss))) == JArr(Strs(ss)))
  }
}
