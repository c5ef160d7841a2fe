/** `MinimalProfile.toObject`, `toList` and `toJson`: the minimal information shown for a user. */
module MinimalProfileCodec {
  import opened Wrappers
  import opened Decimal
  import opened JavaIo
  import opened Json
  import opened Scan
  import opened Model
  import UserInformationCodec

  /** Every field `toObject` reads is present and of a readable type. */
  predicate Readable(c: Codec, obj: seq<(string, Json)>) {
    GetString(c.quote, obj, "name").Some? && GetString(c.quote, obj, "pictureUrl").Some? &&
    GetLong(c.longOfText, obj, "socialId").Some? && GetString(c.quote, obj, "surname").Some? &&
    GetLong(c.longOfText, obj, "userId").Some? && GetString(c.quote, obj, "userInformation").Some?
  }

  /**
   * `toObject`: `None` (null) unless the text is an object whose name, pictureUrl,
   * socialId, surname, userId and userInformation are readable. The nested user
   * information is decoded from the text of its member and may itself be null; `known`
   * is never read, so it keeps its default, false.
   */
  function ToObject(c: Codec, json: string): (r: Option<MinimalProfile>)
    ensures r.Some? <==> ObjectOf(c.parse, json).Some? && Readable(c, ObjectOf(c.parse, json).value)
    ensures r.Some? ==> !r.value.known
    ensures r.Some? ==> var obj := ObjectOf(c.parse, json).value;
      GetLong(c.longOfText, obj, "userId") == Some(r.value.userId) &&
      GetLong(c.longOfText, obj, "socialId") == Some(r.value.socialId) &&
      GetString(c.quote, obj, "name") == r.value.name &&
      GetString(c.quote, obj, "surname") == r.value.surname &&
      GetString(c.quote, obj, "pictureUrl") == r.value.pictureUrl &&
      r.value.userInformation == UserInformationCodec.ToObject(c, GetString(c.quote, obj, "userInformation").value)
  {
    var obj :- ObjectOf(c.parse, json);
    var name :- GetString(c.quote, obj, "name");
    var pictureUrl :- GetString(c.quote, obj, "pictureUrl");
    var socialId :- GetLong(c.longOfText, obj, "socialId");
    var surname :- GetString(c.quote, obj, "surname");
    var userId :- GetLong(c.longOfText, obj, "userId");
    var information :- GetString(c.quote, obj, "userInformation");
    Some(MinimalProfile(userId, socialId, Some(name), Some(surname),
      UserInformationCodec.ToObject(c, information), Some(pictureUrl), false))
  }

  /** The element decoder `toList` applies. */
  function Decoder(c: Codec): string -> Option<MinimalProfile> {
    s => ToObject(c, s)
  }

  /** `toList`: null unless the text is an array; otherwise `toObject` of each element before the first blank one. */
  method ToList(c: Codec, json: string) returns (r: Option<seq<Option<MinimalProfile>>>)
    ensures r == DecodeList(c.parse, c.quote, json, Decoder(c))
  {
    r := ReadList(c.parse, c.quote, json, Decoder(c));
  }

  /**
   * The members `toJson` writes, as the parser reads them back, given the document of the
   * user information: the ids, pictureUrl and known as Jackson writes them, name and
   * surname as strings with null written as "".
   */
  function Members(c: Codec, p: MinimalProfile, information: Json): (ms: seq<(string, Json)>)
    ensures |ms| == 7
    ensures ms[0] == ("userId", c.jackson(LongValue(p.userId))) && ms[1] == ("socialId", c.jackson(LongValue(p.socialId)))
    ensures ms[2] == ("name", JStr(p.name.GetOr(""))) && ms[3] == ("surname", JStr(p.surname.GetOr("")))
    ensures ms[4] == ("pictureUrl", c.jackson(StringValue(p.pictureUrl))) && ms[5] == ("known", c.jackson(BooleanValue(p.known)))
    ensures ms[6] == ("userInformation", information)
    ensures DistinctKeys(ms)
  {
    [
      ("userId", c.jackson(LongValue(p.userId))),
      ("socialId", c.jackson(LongValue(p.socialId))),
      ("name", JStr(p.name.GetOr(""))),
      ("surname", JStr(p.surname.GetOr(""))),
      ("pictureUrl", c.jackson(StringValue(p.pictureUrl))),
      ("known", c.jackson(BooleanValue(p.known))),
      ("userInformation", information)]
  }

  /** Which values of `toJson` Jackson writes: all but the name, the surname and the user information. */
  const ProfileWriters: seq<bool> := [true, true, false, false, true, true, false]

  /**
   * The text `toJson` writes: the keys, the name and the surname quoted by org.json, the
   * user information as `UserInformation.toJson` writes it, the other values by Jackson.
   */
  function JsonText(c: Codec, p: MinimalProfile, information: Json): string {
    HandWritten(c.quote, c.jacksonQuote, Members(c, p, information), ProfileWriters)
  }

  /**
   * `toJson`: null for a null profile or when the user information cannot be written
   * (the `NullPointerException` is caught); otherwise `JsonText`.
   */
  method ToJson(c: Codec, m: Option<MinimalProfile>) returns (r: Option<string>)
    ensures r.None? <==> m.None? || c.userInformationJson(m.value.userInformation).None?
    ensures r.Some? ==> r.value == JsonText(c, m.value, c.userInformationJson(m.value.userInformation).value)
  {
    if m.None? {
      return None;
    }
    var p := m.value;
    var quote, jacksonQuote := c.quote, c.jacksonQuote;
    var writer := new StringWriter();
    writer.Write("{");
    ghost var b0 := writer.buffer;
    writer.Write(quote("userId") + ":" + Print(jacksonQuote, c.jackson(LongValue(p.userId))) + ",");
    ghost var b1 := writer.buffer;
    writer.Write(quote("socialId") + ":" + Print(jacksonQuote, c.jackson(LongValue(p.socialId))) + ",");
    ghost var b2 := writer.buffer;
    writer.Write(quote("name") + ":" + quote(p.name.GetOr("")) + ",");
    ghost var b3 := writer.buffer;
    writer.Write(quote("surname") + ":" + quote(p.surname.GetOr("")) + ",");
    ghost var b4 := writer.buffer;
    writer.Write(quote("pictureUrl") + ":" + Print(jacksonQuote, c.jackson(StringValue(p.pictureUrl))) + ",");
    ghost var b5 := writer.buffer;
    writer.Write(quote("known") + ":" + Print(jacksonQuote, c.jackson(BooleanValue(p.known))) + ",");
    ghost var b6 := writer.buffer;
    var information :- c.userInformationJson(p.userInformation);
    writer.Write(quote("userInformation") + ":" + Print(quote, information));
    writer.Write("}");
    r := Some(writer.buffer);
    Written(c, p, information, b0, b1, b2, b3, b4, b5, b6, r.value);
  }

  /** The text after each write of `toJson` is the document opened up to that member. */
  lemma Written(c: Codec, p: MinimalProfile, information: Json, b0: string, b1: string, b2: string, b3: string,
                b4: string, b5: string, b6: string, b7: string)
    requires b0 == "{"
    requires b1 == b0 + (c.quote("userId") + ":" + Print(c.jacksonQuote, c.jackson(LongValue(p.userId))) + ",")
    requires b2 == b1 + (c.quote("socialId") + ":" + Print(c.jacksonQuote, c.jackson(LongValue(p.socialId))) + ",")
    requires b3 == b2 + (c.quote("name") + ":" + c.quote(p.name.GetOr("")) + ",")
    requires b4 == b3 + (c.quote("surname") + ":" + c.quote(p.surname.GetOr("")) + ",")
    requires b5 == b4 + (c.quote("pictureUrl") + ":" + Print(c.jacksonQuote, c.jackson(StringValue(p.pictureUrl))) + ",")
    requires b6 == b5 + (c.quote("known") + ":" + Print(c.jacksonQuote, c.jackson(BooleanValue(p.known))) + ",")
    requires b7 == b6 + (c.quote("userInformation") + ":" + Print(c.quote, information)) + "}"
    ensures b7 == JsonText(c, p, information)
  {
    var ms, bs, q, jq := Members(c, p, information), ProfileWriters, c.quote, c.jacksonQuote;
    assert b0 == HandOpened(q, jq, ms[..0], bs[..0]);
    HandWrote(q, jq, ms, bs, 0, b0, b1);
    HandWrote(q, jq, ms, bs, 1, b1, b2);
    HandWrote(q, jq, ms, bs, 2, b2, b3);
    HandWrote(q, jq, ms, bs, 3, b3, b4);
    HandWrote(q, jq, ms, bs, 4, b4, b5);
    HandWrote(q, jq, ms, bs, 5, b5, b6);
    HandWroteLast(q, jq, ms, bs, b6, b7);
  }

  /**
   * Round trip: decoding the document `toJson` writes keeps both ids, gives "" for a
   * null name or surname and the text "null" for a null pictureUrl, decodes the user
   * information from its own text, and loses `known`.
   */
  lemma RoundTrip(c: Codec, p: MinimalProfile, information: Json)
    requires ParsesHandWritten(c.parse, c.quote, c.jacksonQuote) && StandardScalars(c.jackson)
    ensures ToObject(c, JsonText(c, p, information)) ==
      Some(MinimalProfile(p.userId, p.socialId, Some(p.name.GetOr("")), Some(p.surname.GetOr("")),
        UserInformationCodec.ToObject(c, Text(c.quote, information)), Some(p.pictureUrl.GetOr("null")), false))
  {
    var obj := Members(c, p, information);
    HandWrittenObject(c.parse, c.quote, c.jacksonQuote, obj, ProfileWriters);
    MembersRead(c, p, information);
  }

  /** What the accessors `toObject` calls read from the members `toJson` writes. */
  lemma MembersRead(c: Codec, p: MinimalProfile, information: Json)
    requires StandardScalars(c.jackson)
    ensures var obj := Members(c, p, information);
      GetLong(c.longOfText, obj, "userId") == Some(p.userId) &&
      GetLong(c.longOfText, obj, "socialId") == Some(p.socialId) &&
      GetString(c.quote, obj, "name") == Some(p.name.GetOr("")) &&
      GetString(c.quote, obj, "surname") == Some(p.surname.GetOr("")) &&
      GetString(c.quote, obj, "pictureUrl") == Some(p.pictureUrl.GetOr("null")) &&
      GetString(c.quote, obj, "userInformation") == Some(Text(c.quote, information))
  {
    var obj := Members(c, p, information);
    assert DistinctKeys(obj);
    GetDistinct(obj, 0);
    GetDistinct(obj, 1);
    GetDistinct(obj, 2);
    GetDistinct(obj, 3);
    GetDistinct(obj, 4);
    GetDistinct(obj, 6);
  }
}
