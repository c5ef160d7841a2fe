/** `Topic.TopicStatus`, `getId`, `toObject`, `toList` and `toJson`: a topic a user follows. */
module TopicCodec {
  import opened Wrappers
  import opened Decimal
  import opened JavaIo
  import opened Json
  import opened Scan
  import opened Model
  import ConceptCodec
  import GroupCodec
  import MinimalProfileCodec

  /** `TopicStatus.getValue()`. */
  function StatusCode(s: TopicStatus): Int {
    match s
    case Active => 1
    case Suspended => 2
  }

  /** ACTIVE is 1 and SUSPENDED is 2, so the code tells the two statuses apart. */
  lemma StatusCodes(s: TopicStatus, t: TopicStatus)
    ensures StatusCode(Active) == 1 && StatusCode(Suspended) == 2
    ensures StatusCode(s) == StatusCode(t) <==> s == t
  {
  }

  /** `getId`: the social id as string concatenation writes it. */
  function GetId(t: Topic): string {
    LongText(t.socialId)
  }

  /** The id reads back as the social id, so distinct topics have distinct ids. */
  lemma GetIdParses(t: Topic, u: Topic)
    ensures ParseDecimal(GetId(t)) == Some(t.socialId)
    ensures GetId(t) == GetId(u) <==> t.socialId == u.socialId
  {
    LongTextIdentifies(t.socialId, u.socialId);
  }

  /**
   * One string-list block of `toObject` (`contentTypes`, `keywords`): `Some(None)` (the
   * list stays null) when the key is absent or null; otherwise the texts of the elements
   * before the first blank one, and `None` (a `JSONException`) when the value is not an array.
   */
  function TextList(c: Codec, obj: seq<(string, Json)>, key: string): (r: Option<Option<seq<string>>>)
    ensures IsNull(obj, key) ==> r == Some(None)
    ensures !IsNull(obj, key) ==> (r.Some? <==> GetArray(obj, key).Some?)
    ensures !IsNull(obj, key) && r.Some? ==> r.value == Some(Texts(c.quote, Prefix(GetArray(obj, key).value)))
  {
    if IsNull(obj, key) then Some(None)
    else
      var items :- GetArray(obj, key);
      Some(Some(Texts(c.quote, Prefix(items))))
  }

  /** The loop block of `toObject` for one string list. */
  method ReadTextList(c: Codec, obj: seq<(string, Json)>, key: string) returns (r: Option<Option<seq<string>>>)
    ensures r == TextList(c, obj, key)
  {
    if IsNull(obj, key) {
      return Some(None);
    }
    var items :- GetArray(obj, key);
    var elements := ReadStrings(c.quote, items);
    r := Some(Some(elements));
  }

  /** A topic none of whose fields `toObject` has set yet. */
  function Unset(): Topic {
    Topic(0, None, 0, None, None, None, None, None, None, false, false, false, false, None)
  }

  /**
   * The first half of `toObject`: the four flags, the communities, the concepts and the
   * two string lists, read in that order; `None` (null) when one of them is missing or
   * unreadable. Nested lists are decoded from the text of their member, the communities
   * by `Community.toList`.
   */
  function Head(c: Codec, obj: seq<(string, Json)>): (r: Option<Topic>)
    ensures r.Some? ==>
      GetBoolean(obj, "allCommunities") == Some(r.value.allCommunities) &&
      GetBoolean(obj, "allKnownCommunities") == Some(r.value.allKnownCommunities) &&
      GetBoolean(obj, "allKnownUsers") == Some(r.value.allKnownUsers) &&
      GetBoolean(obj, "allUsers") == Some(r.value.allUsers)
    ensures r.Some? ==>
      TextList(c, obj, "contentTypes") == Some(r.value.contentTypes) &&
      TextList(c, obj, "keywords") == Some(r.value.keywords)
    ensures r.Some? ==>
      GetString(c.quote, obj, "communities").Some? &&
      r.value.communities == c.communityList(GetString(c.quote, obj, "communities").value) &&
      GetString(c.quote, obj, "concepts").Some? &&
      r.value.concepts == DecodeList(c.parse, c.quote, GetString(c.quote, obj, "concepts").value, ConceptCodec.Decoder(c))
  {
    var allCommunities :- GetBoolean(obj, "allCommunities");
    var allKnownCommunities :- GetBoolean(obj, "allKnownCommunities");
    var allKnownUsers :- GetBoolean(obj, "allKnownUsers");
    var allUsers :- GetBoolean(obj, "allUsers");
    var communities :- GetString(c.quote, obj, "communities");
    var concepts :- GetString(c.quote, obj, "concepts");
    var contentTypes :- TextList(c, obj, "contentTypes");
    var keywords :- TextList(c, obj, "keywords");
    Some(Unset().(allCommunities := allCommunities, allKnownCommunities := allKnownCommunities,
      allKnownUsers := allKnownUsers, allUsers := allUsers, communities := c.communityList(communities),
      concepts := DecodeList(c.parse, c.quote, concepts, ConceptCodec.Decoder(c)),
      contentTypes := contentTypes, keywords := keywords))
  }

  /**
   * The second half of `toObject`: entities, groups, name, socialId, status and users,
   * read in that order into `t`, whose other fields stay as they are.
   */
  function Tail(c: Codec, obj: seq<(string, Json)>, t: Topic): (r: Option<Topic>)
    ensures r.Some? ==>
      GetString(c.quote, obj, "name") == r.value.name &&
      GetLong(c.longOfText, obj, "socialId") == Some(r.value.socialId) &&
      GetInt(c.intOfText, obj, "status") == Some(r.value.status)
    ensures r.Some? ==>
      GetString(c.quote, obj, "users").Some? &&
      r.value.users == DecodeList(c.parse, c.quote, GetString(c.quote, obj, "users").value, MinimalProfileCodec.Decoder(c)) &&
      GetString(c.quote, obj, "groups").Some? &&
      r.value.groups == DecodeList(c.parse, c.quote, GetString(c.quote, obj, "groups").value, GroupCodec.Decoder(c)) &&
      GetString(c.quote, obj, "entities").Some? &&
      r.value.entities == DecodeList(c.parse, c.quote, GetString(c.quote, obj, "entities").value, ConceptCodec.Decoder(c))
    ensures r.Some? ==>
      r.value.(entities := t.entities, groups := t.groups, name := t.name, socialId := t.socialId,
        status := t.status, users := t.users) == t
  {
    var entities :- GetString(c.quote, obj, "entities");
    var groups :- GetString(c.quote, obj, "groups");
    var name :- GetString(c.quote, obj, "name");
    var socialId :- GetLong(c.longOfText, obj, "socialId");
    var status :- GetInt(c.intOfText, obj, "status");
    var users :- GetString(c.quote, obj, "users");
    Some(t.(entities := DecodeList(c.parse, c.quote, entities, ConceptCodec.Decoder(c)),
      groups := DecodeList(c.parse, c.quote, groups, GroupCodec.Decoder(c)),
      name := Some(name), socialId := socialId, status := status,
      users := DecodeList(c.parse, c.quote, users, MinimalProfileCodec.Decoder(c))))
  }

  /**
   * What `toObject` returns: `None` (null) for text that is not an object or for a
   * missing or unreadable member; the four flags are required and read as booleans.
   */
  function Decode(c: Codec, json: string): (r: Option<Topic>)
    ensures r.Some? ==> ObjectOf(c.parse, json).Some?
    ensures r.Some? ==> var obj := ObjectOf(c.parse, json).value;
      GetBoolean(obj, "allCommunities") == Some(r.value.allCommunities) &&
      GetBoolean(obj, "allKnownCommunities") == Some(r.value.allKnownCommunities) &&
      GetBoolean(obj, "allKnownUsers") == Some(r.value.allKnownUsers) &&
      GetBoolean(obj, "allUsers") == Some(r.value.allUsers)
    ensures r.Some? ==> var obj := ObjectOf(c.parse, json).value;
      TextList(c, obj, "contentTypes") == Some(r.value.contentTypes) &&
      TextList(c, obj, "keywords") == Some(r.value.keywords)
    ensures r.Some? ==> var obj := ObjectOf(c.parse, json).value;
      GetString(c.quote, obj, "name") == r.value.name &&
      GetLong(c.longOfText, obj, "socialId") == Some(r.value.socialId) &&
      GetInt(c.intOfText, obj, "status") == Some(r.value.status)
  {
    var obj :- ObjectOf(c.parse, json);
    var head :- Head(c, obj);
    Tail(c, obj, head)
  }

  /** Every one of the four flags is required: one missing or unreadable makes `toObject` return null. */
  lemma MissingFlagFails(c: Codec, json: string)
    requires ObjectOf(c.parse, json).Some?
    requires var obj := ObjectOf(c.parse, json).value;
      GetBoolean(obj, "allCommunities").None? || GetBoolean(obj, "allKnownCommunities").None? ||
      GetBoolean(obj, "allKnownUsers").None? || GetBoolean(obj, "allUsers").None?
    ensures Decode(c, json).None?
  {
  }

  /** `toObject`: the two halves one after the other. */
  method ToObject(c: Codec, json: string) returns (r: Option<Topic>)
    ensures r == Decode(c, json)
  {
    var obj :- ObjectOf(c.parse, json);
    var topic :- ReadHead(c, obj);
    r := ReadTail(c, obj, topic);
  }

  /** The first half of `toObject`, setting the fields one after another as the source's setters do. */
  method ReadHead(c: Codec, obj: seq<(string, Json)>) returns (r: Option<Topic>)
    ensures r == Head(c, obj)
  {
    var topic := Unset();
    var flag :- GetBoolean(obj, "allCommunities");
    topic := topic.(allCommunities := flag);
    flag :- GetBoolean(obj, "allKnownCommunities");
    topic := topic.(allKnownCommunities := flag);
    flag :- GetBoolean(obj, "allKnownUsers");
    topic := topic.(allKnownUsers := flag);
    flag :- GetBoolean(obj, "allUsers");
    topic := topic.(allUsers := flag);
    var text :- GetString(c.quote, obj, "communities");
    topic := topic.(communities := c.communityList(text));
    text :- GetString(c.quote, obj, "concepts");
    var concepts := ConceptCodec.ToList(c, text);
    topic := topic.(concepts := concepts);
    var contentTypes :- ReadTextList(c, obj, "contentTypes");
    topic := topic.(contentTypes := contentTypes);
    var keywords :- ReadTextList(c, obj, "keywords");
    topic := topic.(keywords := keywords);
    r := Some(topic);
  }

  /** The second half of `toObject`, setting the fields one after another as the source's setters do. */
  method ReadTail(c: Codec, obj: seq<(string, Json)>, t: Topic) returns (r: Option<Topic>)
    ensures r == Tail(c, obj, t)
  {
    var topic := t;
    var text :- GetString(c.quote, obj, "entities");
    var entities := ConceptCodec.ToList(c, text);
    topic := topic.(entities := entities);
    text :- GetString(c.quote, obj, "groups");
    var groups := GroupCodec.ToList(c, text);
    topic := topic.(groups := groups);
    var name :- GetString(c.quote, obj, "name");
    topic := topic.(name := Some(name));
    var socialId :- GetLong(c.longOfText, obj, "socialId");
    topic := topic.(socialId := socialId);
    var status :- GetInt(c.intOfText, obj, "status");
    topic := topic.(status := status);
    text :- GetString(c.quote, obj, "users");
    var users := MinimalProfileCodec.ToList(c, text);
    topic := topic.(users := users);
    r := Some(topic);
  }

  /** The element decoder `toList` applies. */
  function Decoder(c: Codec): string -> Option<Topic> {
    s => Decode(c, s)
  }

  /** `toList`: null unless the text is an array; otherwise `toObject` of each element before the first blank one. */
  method ToList(c: Codec, json: string) returns (r: Option<seq<Option<Topic>>>)
    ensures r == DecodeList(c.parse, c.quote, json, Decoder(c))
  {
    r := ReadList(c.parse, c.quote, json, Decoder(c));
  }

  /** The eleven members `toJson` writes, as the parser reads them back: none of them is one of the four flags. */
  function Members(c: Codec, t: Topic): (ms: seq<(string, Json)>)
    ensures |ms| == 11
    ensures ms[0] == ("communities", c.jackson(CommunityList(t.communities)))
    ensures ms[1] == ("concepts", c.jackson(ConceptList(t.concepts)))
    ensures ms[2] == ("contentTypes", c.jackson(StringList(t.contentTypes)))
    ensures ms[3] == ("entities", c.jackson(ConceptList(t.entities)))
    ensures ms[4] == ("groups", c.jackson(GroupList(t.groups)))
    ensures ms[5] == ("id", c.jackson(StringValue(Some(GetId(t)))))
    ensures ms[6] == ("keywords", c.jackson(StringList(t.keywords)))
    ensures ms[7] == ("name", c.jackson(StringValue(t.name)))
    ensures ms[8] == ("socialId", c.jackson(LongValue(t.socialId)))
    ensures ms[9] == ("status", c.jackson(IntegerValue(t.status)))
    ensures ms[10] == ("users", c.jackson(ProfileList(t.users)))
    ensures DistinctKeys(ms)
  {
    var first := FirstMembers(c, t);
    var last := LastMembers(c, t);
    first + last
  }

  /** The first six members of `Members`. */
  function FirstMembers(c: Codec, t: Topic): (ms: seq<(string, Json)>)
    ensures |ms| == 6
    ensures ms[0] == ("communities", c.jackson(CommunityList(t.communities)))
    ensures ms[1] == ("concepts", c.jackson(ConceptList(t.concepts)))
    ensures ms[2] == ("contentTypes", c.jackson(StringList(t.contentTypes)))
    ensures ms[3] == ("entities", c.jackson(ConceptList(t.entities)))
    ensures ms[4] == ("groups", c.jackson(GroupList(t.groups)))
    ensures ms[5] == ("id", c.jackson(StringValue(Some(GetId(t)))))
  {
    [("communities", c.jackson(CommunityList(t.communities))),
     ("concepts", c.jackson(ConceptList(t.concepts))),
     ("contentTypes", c.jackson(StringList(t.contentTypes))),
     ("entities", c.jackson(ConceptList(t.entities))),
     ("groups", c.jackson(GroupList(t.groups))),
     ("id", c.jackson(StringValue(Some(GetId(t)))))]
  }

  /** The last five members of `Members`. */
  function LastMembers(c: Codec, t: Topic): (ms: seq<(string, Json)>)
    ensures |ms| == 5
    ensures ms[0] == ("keywords", c.jackson(StringList(t.keywords)))
    ensures ms[1] == ("name", c.jackson(StringValue(t.name)))
    ensures ms[2] == ("socialId", c.jackson(LongValue(t.socialId)))
    ensures ms[3] == ("status", c.jackson(IntegerValue(t.status)))
    ensures ms[4] == ("users", c.jackson(ProfileList(t.users)))
  {
    [("keywords", c.jackson(StringList(t.keywords))),
     ("name", c.jackson(StringValue(t.name))),
     ("socialId", c.jackson(LongValue(t.socialId))),
     ("status", c.jackson(IntegerValue(t.status))),
     ("users", c.jackson(ProfileList(t.users)))]
  }

  /** Jackson writes every value of `toJson`. */
  const TopicWriters: seq<bool> := [true, true, true, true, true, true, true, true, true, true, true]

  /** The text `toJson` writes: the keys quoted by org.json, every value written by Jackson. */
  function JsonText(c: Codec, t: Topic): string {
    HandWritten(c.quote, c.jacksonQuote, Members(c, t), TopicWriters)
  }

  /** `toJson`: null for a null topic (the `NullPointerException` is caught); otherwise `JsonText`. */
  method ToJson(c: Codec, t: Option<Topic>) returns (r: Option<string>)
    ensures r.None? <==> t.None?
    ensures r.Some? ==> r.value == JsonText(c, t.value)
  {
    if t.None? {
      return None;
    }
    var topic := t.value;
    var quote, jacksonQuote := c.quote, c.jacksonQuote;
    var writer := new StringWriter();
    writer.Write("{");
    ghost var b0 := writer.buffer;
    writer.Write(quote("communities") + ":" + Print(jacksonQuote, c.jackson(CommunityList(topic.communities))) + ",");
    ghost var b1 := writer.buffer;
    writer.Write(quote("concepts") + ":" + Print(jacksonQuote, c.jackson(ConceptList(topic.concepts))) + ",");
    ghost var b2 := writer.buffer;
    writer.Write(quote("contentTypes") + ":" + Print(jacksonQuote, c.jackson(StringList(topic.contentTypes))) + ",");
    ghost var b3 := writer.buffer;
    writer.Write(quote("entities") + ":" + Print(jacksonQuote, c.jackson(ConceptList(topic.entities))) + ",");
    ghost var b4 := writer.buffer;
    writer.Write(quote("groups") + ":" + Print(jacksonQuote, c.jackson(GroupList(topic.groups))) + ",");
    ghost var b5 := writer.buffer;
    writer.Write(quote("id") + ":" + Print(jacksonQuote, c.jackson(StringValue(Some(GetId(topic))))) + ",");
    ghost var b6 := writer.buffer;
    writer.Write(quote("keywords") + ":" + Print(jacksonQuote, c.jackson(StringList(topic.keywords))) + ",");
    ghost var b7 := writer.buffer;
    writer.Write(quote("name") + ":" + Print(jacksonQuote, c.jackson(StringValue(topic.name))) + ",");
    ghost var b8 := writer.buffer;
    writer.Write(quote("socialId") + ":" + Print(jacksonQuote, c.jackson(LongValue(topic.socialId))) + ",");
    ghost var b9 := writer.buffer;
    writer.Write(quote("status") + ":" + Print(jacksonQuote, c.jackson(IntegerValue(topic.status))) + ",");
    ghost var b10 := writer.buffer;
    writer.Write(quote("users") + ":" + Print(jacksonQuote, c.jackson(ProfileList(topic.users))));
    writer.Write("}");
    r := Some(writer.buffer);
    ghost var ms := Members(c, topic);
    FirstSix(c.quote, c.jacksonQuote, ms, b0, b1, b2, b3, b4, b5, b6);
    LastFive(c.quote, c.jacksonQuote, ms, b6, b7, b8, b9, b10, r.value);
  }

  /** The first six writes of `toJson` open the first six members. */
  lemma FirstSix(quote: string -> string, jacksonQuote: string -> string, ms: seq<(string, Json)>,
                 b0: string, b1: string, b2: string, b3: string, b4: string, b5: string, b6: string)
    requires |ms| == 11 && b0 == "{"
    requires b1 == b0 + (quote("communities") + ":" + Print(jacksonQuote, ms[0].1) + ",") && ms[0].0 == "communities"
    requires b2 == b1 + (quote("concepts") + ":" + Print(jacksonQuote, ms[1].1) + ",") && ms[1].0 == "concepts"
    requires b3 == b2 + (quote("contentTypes") + ":" + Print(jacksonQuote, ms[2].1) + ",") && ms[2].0 == "contentTypes"
    requires b4 == b3 + (quote("entities") + ":" + Print(jacksonQuote, ms[3].1) + ",") && ms[3].0 == "entities"
    requires b5 == b4 + (quote("groups") + ":" + Print(jacksonQuote, ms[4].1) + ",") && ms[4].0 == "groups"
    requires b6 == b5 + (quote("id") + ":" + Print(jacksonQuote, ms[5].1) + ",") && ms[5].0 == "id"
    ensures b6 == HandOpened(quote, jacksonQuote, ms[..6], TopicWriters[..6])
  {
    assert forall k :: 0 <= k < 11 ==> ValueText(quote, jacksonQuote, ms[k].1, TopicWriters[k]) == Print(jacksonQuote, ms[k].1);
    assert b0 == HandOpened(quote, jacksonQuote, ms[..0], TopicWriters[..0]);
    HandWrote(quote, jacksonQuote, ms, TopicWriters, 0, b0, b1);
    HandWrote(quote, jacksonQuote, ms, TopicWriters, 1, b1, b2);
    HandWrote(quote, jacksonQuote, ms, TopicWriters, 2, b2, b3);
    HandWrote(quote, jacksonQuote, ms, TopicWriters, 3, b3, b4);
    HandWrote(quote, jacksonQuote, ms, TopicWriters, 4, b4, b5);
    HandWrote(quote, jacksonQuote, ms, TopicWriters, 5, b5, b6);
  }

  /** The last five writes of `toJson` and the closing brace complete the document. */
  lemma LastFive(quote: string -> string, jacksonQuote: string -> string, ms: seq<(string, Json)>,
                 b6: string, b7: string, b8: string, b9: string, b10: string, b11: string)
    requires |ms| == 11 && b6 == HandOpened(quote, jacksonQuote, ms[..6], TopicWriters[..6])
    requires b7 == b6 + (quote("keywords") + ":" + Print(jacksonQuote, ms[6].1) + ",") && ms[6].0 == "keywords"
    requires b8 == b7 + (quote("name") + ":" + Print(jacksonQuote, ms[7].1) + ",") && ms[7].0 == "name"
    requires b9 == b8 + (quote("socialId") + ":" + Print(jacksonQuote, ms[8].1) + ",") && ms[8].0 == "socialId"
    requires b10 == b9 + (quote("status") + ":" + Print(jacksonQuote, ms[9].1) + ",") && ms[9].0 == "status"
    requires b11 == b10 + (quote("users") + ":" + Print(jacksonQuote, ms[10].1)) + "}" && ms[10].0 == "users"
    ensures b11 == HandWritten(quote, jacksonQuote, ms, TopicWriters)
  {
    assert forall k :: 0 <= k < 11 ==> ValueText(quote, jacksonQuote, ms[k].1, TopicWriters[k]) == Print(jacksonQuote, ms[k].1);
    HandWrote(quote, jacksonQuote, ms, TopicWriters, 6, b6, b7);
    HandWrote(quote, jacksonQuote, ms, TopicWriters, 7, b7, b8);
    HandWrote(quote, jacksonQuote, ms, TopicWriters, 8, b8, b9);
    HandWrote(quote, jacksonQuote, ms, TopicWriters, 9, b9, b10);
    HandWroteLast(quote, jacksonQuote, ms, TopicWriters, b10, b11);
  }

  /**
   * `toJson` never writes the four flags `toObject` requires, so decoding the text
   * `toJson` writes always gives null.
   */
  lemma NeverReadsBack(c: Codec, t: Topic)
    requires ParsesHandWritten(c.parse, c.quote, c.jacksonQuote)
    ensures Decode(c, JsonText(c, t)).None?
  {
    var obj := Members(c, t);
    HandWrittenObject(c.parse, c.quote, c.jacksonQuote, obj, TopicWriters);
    assert forall i :: 0 <= i < |obj| ==> obj[i].0 != "allCommunities";
    assert Get(obj, "allCommunities").None?;
    assert Head(c, obj).None?;
  }
}
