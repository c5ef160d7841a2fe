/** `Group.getId`, `toObject`, `toList` and `toJson`: a social group and its members. */
module GroupCodec {
  import opened Wrappers
  import opened Decimal
  import opened JavaIo
  import opened Json
  import opened Scan
  import opened Model
  import MinimalProfileCodec

  /** `getId`: the social id as string concatenation writes it. */
  function GetId(g: Group): string {
    LongText(g.socialId)
  }

  /** The id reads back as the social id, so distinct groups have distinct ids. */
  lemma GetIdParses(g: Group, h: Group)
    ensures ParseDecimal(GetId(g)) == Some(g.socialId)
    ensures GetId(g) == GetId(h) <==> g.socialId == h.socialId
  {
    LongTextIdentifies(g.socialId, h.socialId);
  }

  /** The fields `toObject` reads are present and of a readable type. */
  predicate Readable(c: Codec, obj: seq<(string, Json)>) {
    GetString(c.quote, obj, "name").Some? && GetLong(c.longOfText, obj, "socialId").Some? &&
    GetString(c.quote, obj, "users").Some?
  }

  /**
   * What `toObject` returns: `None` (null) unless the text is an object with a name, a
   * social id and a users member; the users are `MinimalProfile.toList` of the text of
   * that member, null when that text is not an array.
   */
  function Decode(c: Codec, json: string): (r: Option<Group>)
    ensures r.Some? <==> ObjectOf(c.parse, json).Some? && Readable(c, ObjectOf(c.parse, json).value)
    ensures r.Some? ==> var obj := ObjectOf(c.parse, json).value;
      GetString(c.quote, obj, "name") == r.value.name &&
      GetLong(c.longOfText, obj, "socialId") == Some(r.value.socialId) &&
      r.value.users == DecodeList(c.parse, c.quote, GetString(c.quote, obj, "users").value, MinimalProfileCodec.Decoder(c))
  {
    var obj :- ObjectOf(c.parse, json);
    var name :- GetString(c.quote, obj, "name");
    var socialId :- GetLong(c.longOfText, obj, "socialId");
    var users :- GetString(c.quote, obj, "users");
    Some(Group(socialId, Some(name), DecodeList(c.parse, c.quote, users, MinimalProfileCodec.Decoder(c))))
  }

  /** `toObject`, setting the fields one after another as the source's setters do. */
  method ToObject(c: Codec, json: string) returns (r: Option<Group>)
    ensures r == Decode(c, json)
  {
    var obj :- ObjectOf(c.parse, json);
    var group := Group(0, None, None);
    var name :- GetString(c.quote, obj, "name");
    group := group.(name := Some(name));
    var socialId :- GetLong(c.longOfText, obj, "socialId");
    group := group.(socialId := socialId);
    var users :- GetString(c.quote, obj, "users");
    var profiles := MinimalProfileCodec.ToList(c, users);
    group := group.(users := profiles);
    r := Some(group);
  }

  /**
   * A users member that is present but holds neither an array nor a string (whose text
   * would be parsed afresh) leaves the users null; the group itself is still returned.
   */
  lemma UsersNotArray(c: Codec, json: string, users: Json)
    requires ParsesPrinted(c.parse, c.quote)
    requires ObjectOf(c.parse, json).Some? && Readable(c, ObjectOf(c.parse, json).value)
    requires Get(ObjectOf(c.parse, json).value, "users") == Some(users) && !users.JArr? && !users.JStr?
    ensures Decode(c, json).Some? && Decode(c, json).value.users.None?
  {
    assert c.parse(Print(c.quote, users)) == Some(users);
  }

  /** The element decoder `toList` applies. */
  function Decoder(c: Codec): string -> Option<Group> {
    s => Decode(c, s)
  }

  /** `toList`: null unless the text is an array; otherwise `toObject` of each element before the first blank one. */
  method ToList(c: Codec, json: string) returns (r: Option<seq<Option<Group>>>)
    ensures r == DecodeList(c.parse, c.quote, json, Decoder(c))
  {
    r := ReadList(c.parse, c.quote, json, Decoder(c));
  }

  /** The members `toJson` writes, name, socialId and users, as the parser reads them back. */
  function Members(c: Codec, g: Group): (ms: seq<(string, Json)>)
    ensures |ms| == 3 && ms[0] == ("name", c.jackson(StringValue(g.name)))
    ensures ms[1] == ("socialId", c.jackson(LongValue(g.socialId))) && ms[2] == ("users", c.jackson(ProfileList(g.users)))
    ensures DistinctKeys(ms)
  {
    [("name", c.jackson(StringValue(g.name))),
     ("socialId", c.jackson(LongValue(g.socialId))),
     ("users", c.jackson(ProfileList(g.users)))]
  }

  /** The text `toJson` writes: the keys quoted by org.json, every value written by Jackson. */
  function JsonText(c: Codec, g: Group): string {
    HandWritten(c.quote, c.jacksonQuote, Members(c, g), [true, true, true])
  }

  /** `toJson`: null for a null group (the `NullPointerException` is caught); otherwise `JsonText`. */
  method ToJson(c: Codec, g: Option<Group>) returns (r: Option<string>)
    ensures r.None? <==> g.None?
    ensures r.Some? ==> r.value == JsonText(c, g.value)
  {
    if g.None? {
      return None;
    }
    var group := g.value;
    var quote, jacksonQuote := c.quote, c.jacksonQuote;
    var writer := new StringWriter();
    writer.Write("{");
    ghost var b0 := writer.buffer;
    writer.Write(quote("name") + ":" + Print(jacksonQuote, c.jackson(StringValue(group.name))) + ",");
    ghost var b1 := writer.buffer;
    writer.Write(quote("socialId") + ":" + Print(jacksonQuote, c.jackson(LongValue(group.socialId))) + ",");
    ghost var b2 := writer.buffer;
    writer.Write(quote("users") + ":" + Print(jacksonQuote, c.jackson(ProfileList(group.users))));
    writer.Write("}");
    r := Some(writer.buffer);
    Written(c, group, b0, b1, b2, r.value);
  }

  /** The text after each write of `toJson` is the document opened up to that member. */
  lemma Written(c: Codec, g: Group, b0: string, b1: string, b2: string, b3: string)
    requires b0 == "{"
    requires b1 == b0 + (c.quote("name") + ":" + Print(c.jacksonQuote, c.jackson(StringValue(g.name))) + ",")
    requires b2 == b1 + (c.quote("socialId") + ":" + Print(c.jacksonQuote, c.jackson(LongValue(g.socialId))) + ",")
    requires b3 == b2 + (c.quote("users") + ":" + Print(c.jacksonQuote, c.jackson(ProfileList(g.users)))) + "}"
    ensures b3 == JsonText(c, g)
  {
    var ms, bs := Members(c, g), [true, true, true];
    assert b0 == HandOpened(c.quote, c.jacksonQuote, ms[..0], bs[..0]);
    HandWrote(c.quote, c.jacksonQuote, ms, bs, 0, b0, b1);
    HandWrote(c.quote, c.jacksonQuote, ms, bs, 1, b1, b2);
    HandWroteLast(c.quote, c.jacksonQuote, ms, bs, b2, b3);
  }

  /**
   * Round trip: decoding the document `toJson` writes keeps the social id, gives the
   * text "null" for a null name, and decodes the users from the text Jackson wrote for them.
   */
  lemma RoundTrip(c: Codec, g: Group)
    requires ParsesHandWritten(c.parse, c.quote, c.jacksonQuote) && StandardScalars(c.jackson)
    ensures Decode(c, JsonText(c, g)) ==
      Some(Group(g.socialId, Some(g.name.GetOr("null")),
        DecodeList(c.parse, c.quote, Text(c.quote, c.jackson(ProfileList(g.users))), MinimalProfileCodec.Decoder(c))))
  {
    var obj := Members(c, g);
    HandWrittenObject(c.parse, c.quote, c.jacksonQuote, obj, [true, true, true]);
    assert DistinctKeys(obj);
    GetDistinct(obj, 0);
    GetDistinct(obj, 1);
    GetDistinct(obj, 2);
  }
}
