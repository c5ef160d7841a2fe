/** `Entity.toObject`, `toList` and `toJson`: an object of the system (a portfolio, an event, a story). */
module EntityCodec {
  import opened Wrappers
  import opened Decimal
  import opened JavaIo
  import opened Json
  import opened Scan
  import opened Model
  import ConceptCodec
  import ShareVisibilityCodec

  /**
   * The relations block of `toObject`: the same scan as the id lists of
   * `ShareVisibility.toObject` (null key: the list stays null; otherwise the ids before
   * the first blank element, failing when the value is no array or an id no number).
   */
  function Relations(c: Codec, obj: seq<(string, Json)>): Option<Option<seq<Long>>> {
    ShareVisibilityCodec.IdList(c, obj, "relations")
  }

  /** Every member `toObject` reads is present and readable. */
  predicate Readable(c: Codec, obj: seq<(string, Json)>) {
    GetLong(c.longOfText, obj, "creatorId").Some? && GetString(c.quote, obj, "description").Some? &&
    GetLong(c.longOfText, obj, "id").Some? && GetString(c.quote, obj, "name").Some? &&
    Relations(c, obj).Some? && GetString(c.quote, obj, "tags").Some? &&
    GetString(c.quote, obj, "type").Some? && GetLong(c.longOfText, obj, "typeId").Some?
  }

  /**
   * What `toObject` returns: `None` (null) unless the text is an object all of whose
   * members read; the tags are `Concept.toList` of the text of the tags member.
   */
  function Decode(c: Codec, json: string): (r: Option<Entity>)
    ensures r.Some? <==> ObjectOf(c.parse, json).Some? && Readable(c, ObjectOf(c.parse, json).value)
    ensures r.Some? ==> var obj := ObjectOf(c.parse, json).value;
      GetLong(c.longOfText, obj, "id") == Some(r.value.id) &&
      GetLong(c.longOfText, obj, "creatorId") == Some(r.value.creatorId) &&
      GetLong(c.longOfText, obj, "typeId") == Some(r.value.typeId) &&
      GetString(c.quote, obj, "type") == r.value.typeName &&
      GetString(c.quote, obj, "name") == r.value.name &&
      GetString(c.quote, obj, "description") == r.value.description
    ensures r.Some? ==> var obj := ObjectOf(c.parse, json).value;
      Relations(c, obj) == Some(r.value.relations) &&
      r.value.tags == DecodeList(c.parse, c.quote, GetString(c.quote, obj, "tags").value, ConceptCodec.Decoder(c))
  {
    var obj :- ObjectOf(c.parse, json);
    var creatorId :- GetLong(c.longOfText, obj, "creatorId");
    var description :- GetString(c.quote, obj, "description");
    var id :- GetLong(c.longOfText, obj, "id");
    var name :- GetString(c.quote, obj, "name");
    var relations :- Relations(c, obj);
    var tags :- GetString(c.quote, obj, "tags");
    var typeName :- GetString(c.quote, obj, "type");
    var typeId :- GetLong(c.longOfText, obj, "typeId");
    Some(Entity(id, creatorId, Some(typeName), typeId, Some(name), Some(description),
      DecodeList(c.parse, c.quote, tags, ConceptCodec.Decoder(c)), relations))
  }

  /** `toObject`, setting the fields one after another as the source's setters do. */
  method ToObject(c: Codec, json: string) returns (r: Option<Entity>)
    ensures r == Decode(c, json)
  {
    var obj :- ObjectOf(c.parse, json);
    var entity := Entity(0, 0, None, 0, None, None, None, None);
    var n :- GetLong(c.longOfText, obj, "creatorId");
    entity := entity.(creatorId := n);
    var text :- GetString(c.quote, obj, "description");
    entity := entity.(description := Some(text));
    n :- GetLong(c.longOfText, obj, "id");
    entity := entity.(id := n);
    text :- GetString(c.quote, obj, "name");
    entity := entity.(name := Some(text));
    var relations :- ShareVisibilityCodec.ReadIdList(c, obj, "relations");
    entity := entity.(relations := relations);
    text :- GetString(c.quote, obj, "tags");
    var tags := ConceptCodec.ToList(c, text);
    entity := entity.(tags := tags);
    text :- GetString(c.quote, obj, "type");
    entity := entity.(typeName := Some(text));
    n :- GetLong(c.longOfText, obj, "typeId");
    entity := entity.(typeId := n);
    r := Some(entity);
  }

  /** The element decoder `toList` applies. */
  function Decoder(c: Codec): string -> Option<Entity> {
    s => Decode(c, s)
  }

  /** `toList`: null unless the text is an array; otherwise `toObject` of each element before the first blank one. */
  method ToList(c: Codec, json: string) returns (r: Option<seq<Option<Entity>>>)
    ensures r == DecodeList(c.parse, c.quote, json, Decoder(c))
  {
    r := ReadList(c.parse, c.quote, json, Decoder(c));
  }

  /** The eight members `toJson` writes, as the parser reads them back. */
  function Members(c: Codec, e: Entity): (ms: seq<(string, Json)>)
    ensures |ms| == 8
    ensures ms[0] == ("id", c.jackson(LongValue(e.id)))
    ensures ms[1] == ("name", c.jackson(StringValue(e.name)))
    ensures ms[2] == ("description", c.jackson(StringValue(e.description)))
    ensures ms[3] == ("creatorId", c.jackson(LongValue(e.creatorId)))
    ensures ms[4] == ("type", c.jackson(StringValue(e.typeName)))
    ensures ms[5] == ("typeId", c.jackson(LongValue(e.typeId)))
    ensures ms[6] == ("relations", c.jackson(LongList(e.relations)))
    ensures ms[7] == ("tags", c.jackson(ConceptList(e.tags)))
    ensures DistinctKeys(ms)
  {
    [("id", c.jackson(LongValue(e.id))),
     ("name", c.jackson(StringValue(e.name))),
     ("description", c.jackson(StringValue(e.description))),
     ("creatorId", c.jackson(LongValue(e.creatorId))),
     ("type", c.jackson(StringValue(e.typeName))),
     ("typeId", c.jackson(LongValue(e.typeId))),
     ("relations", c.jackson(LongList(e.relations))),
     ("tags", c.jackson(ConceptList(e.tags)))]
  }

  /** Jackson writes every value of `toJson`. */
  const EntityWriters: seq<bool> := [true, true, true, true, true, true, true, true]

  /** The text `toJson` writes: the keys quoted by org.json, every value written by Jackson. */
  function JsonText(c: Codec, e: Entity): string {
    HandWritten(c.quote, c.jacksonQuote, Members(c, e), EntityWriters)
  }

  /** `toJson`: null for a null entity (the `NullPointerException` is caught); otherwise `JsonText`. */
  method ToJson(c: Codec, e: Option<Entity>) returns (r: Option<string>)
    ensures r.None? <==> e.None?
    ensures r.Some? ==> r.value == JsonText(c, e.value)
  {
    if e.None? {
      return None;
    }
    var entity := e.value;
    var quote, jacksonQuote := c.quote, c.jacksonQuote;
    var writer := new StringWriter();
    writer.Write("{");
    ghost var b0 := writer.buffer;
    writer.Write(quote("id") + ":" + Print(jacksonQuote, c.jackson(LongValue(entity.id))) + ",");
    ghost var b1 := writer.buffer;
    writer.Write(quote("name") + ":" + Print(jacksonQuote, c.jackson(StringValue(entity.name))) + ",");
    ghost var b2 := writer.buffer;
    writer.Write(quote("description") + ":" + Print(jacksonQuote, c.jackson(StringValue(entity.description))) + ",");
    ghost var b3 := writer.buffer;
    writer.Write(quote("creatorId") + ":" + Print(jacksonQuote, c.jackson(LongValue(entity.creatorId))) + ",");
    ghost var b4 := writer.buffer;
    writer.Write(quote("type") + ":" + Print(jacksonQuote, c.jackson(StringValue(entity.typeName))) + ",");
    ghost var b5 := writer.buffer;
    writer.Write(quote("typeId") + ":" + Print(jacksonQuote, c.jackson(LongValue(entity.typeId))) + ",");
    ghost var b6 := writer.buffer;
    writer.Write(quote("relations") + ":" + Print(jacksonQuote, c.jackson(LongList(entity.relations))) + ",");
    ghost var b7 := writer.buffer;
    writer.Write(quote("tags") + ":" + Print(jacksonQuote, c.jackson(ConceptList(entity.tags))));
    writer.Write("}");
    r := Some(writer.buffer);
    ghost var ms := Members(c, entity);
    Written(c.quote, c.jacksonQuote, ms, b0, b1, b2, b3, b4, b5, b6, b7, r.value);
  }

  /** The text after each write of `toJson` is the document opened up to that member. */
  lemma Written(quote: string -> string, jacksonQuote: string -> string, ms: seq<(string, Json)>,
                b0: string, b1: string, b2: string, b3: string, b4: string, b5: string, b6: string, b7: string, b8: string)
    requires |ms| == 8 && b0 == "{"
    requires b1 == b0 + (quote("id") + ":" + Print(jacksonQuote, ms[0].1) + ",") && ms[0].0 == "id"
    requires b2 == b1 + (quote("name") + ":" + Print(jacksonQuote, ms[1].1) + ",") && ms[1].0 == "name"
    requires b3 == b2 + (quote("description") + ":" + Print(jacksonQuote, ms[2].1) + ",") && ms[2].0 == "description"
    requires b4 == b3 + (quote("creatorId") + ":" + Print(jacksonQuote, ms[3].1) + ",") && ms[3].0 == "creatorId"
    requires b5 == b4 + (quote("type") + ":" + Print(jacksonQuote, ms[4].1) + ",") && ms[4].0 == "type"
    requires b6 == b5 + (quote("typeId") + ":" + Print(jacksonQuote, ms[5].1) + ",") && ms[5].0 == "typeId"
    requires b7 == b6 + (quote("relations") + ":" + Print(jacksonQuote, ms[6].1) + ",") && ms[6].0 == "relations"
    requires b8 == b7 + (quote("tags") + ":" + Print(jacksonQuote, ms[7].1)) + "}" && ms[7].0 == "tags"
    ensures b8 == HandWritten(quote, jacksonQuote, ms, EntityWriters)
  {
    assert forall k :: 0 <= k < 8 ==> ValueText(quote, jacksonQuote, ms[k].1, EntityWriters[k]) == Print(jacksonQuote, ms[k].1);
    assert b0 == HandOpened(quote, jacksonQuote, ms[..0], EntityWriters[..0]);
    HandWrote(quote, jacksonQuote, ms, EntityWriters, 0, b0, b1);
    HandWrote(quote, jacksonQuote, ms, EntityWriters, 1, b1, b2);
    HandWrote(quote, jacksonQuote, ms, EntityWriters, 2, b2, b3);
    HandWrote(quote, jacksonQuote, ms, EntityWriters, 3, b3, b4);
    HandWrote(quote, jacksonQuote, ms, EntityWriters, 4, b4, b5);
    HandWrote(quote, jacksonQuote, ms, EntityWriters, 5, b5, b6);
    HandWrote(quote, jacksonQuote, ms, EntityWriters, 6, b6, b7);
    HandWroteLast(quote, jacksonQuote, ms, EntityWriters, b7, b8);
  }

  /**
   * Round trip: decoding the document `toJson` writes keeps the three ids and the
   * relations, gives the text "null" for each null string, and decodes the tags from the
   * text Jackson wrote for them.
   */
  lemma RoundTrip(c: Codec, e: Entity)
    requires ParsesHandWritten(c.parse, c.quote, c.jacksonQuote) && StandardScalars(c.jackson)
    ensures Decode(c, JsonText(c, e)) ==
      Some(Entity(e.id, e.creatorId, Some(e.typeName.GetOr("null")), e.typeId,
        Some(e.name.GetOr("null")), Some(e.description.GetOr("null")),
        DecodeList(c.parse, c.quote, Text(c.quote, c.jackson(ConceptList(e.tags))), ConceptCodec.Decoder(c)),
        e.relations))
  {
    var obj := Members(c, e);
    HandWrittenObject(c.parse, c.quote, c.jacksonQuote, obj, EntityWriters);
    IdsRead(c, e);
    TextsRead(c, e);
    ListsRead(c, e);
  }

  /** The ids `getLong` reads from the members `toJson` writes. */
  lemma IdsRead(c: Codec, e: Entity)
    requires StandardScalars(c.jackson)
    ensures var obj := Members(c, e);
      GetLong(c.longOfText, obj, "id") == Some(e.id) &&
      GetLong(c.longOfText, obj, "creatorId") == Some(e.creatorId) &&
      GetLong(c.longOfText, obj, "typeId") == Some(e.typeId)
  {
    var obj := Members(c, e);
    assert DistinctKeys(obj);
    GetDistinct(obj, 0);
    GetDistinct(obj, 3);
    GetDistinct(obj, 5);
  }

  /** The texts `getString` reads from the members `toJson` writes: "null" for a null string. */
  lemma TextsRead(c: Codec, e: Entity)
    requires StandardScalars(c.jackson)
    ensures var obj := Members(c, e);
      GetString(c.quote, obj, "name") == Some(e.name.GetOr("null")) &&
      GetString(c.quote, obj, "description") == Some(e.description.GetOr("null")) &&
      GetString(c.quote, obj, "type") == Some(e.typeName.GetOr("null"))
  {
    var obj := Members(c, e);
    assert DistinctKeys(obj);
    GetDistinct(obj, 1);
    GetDistinct(obj, 2);
    GetDistinct(obj, 4);
  }

  /** The relations and the tags `toObject` reads from the members `toJson` writes. */
  lemma ListsRead(c: Codec, e: Entity)
    requires StandardScalars(c.jackson)
    ensures var obj := Members(c, e);
      GetString(c.quote, obj, "tags") == Some(Text(c.quote, c.jackson(ConceptList(e.tags)))) &&
      Relations(c, obj) == Some(e.relations)
  {
    var obj := Members(c, e);
    assert DistinctKeys(obj);
    GetDistinct(obj, 6);
    GetDistinct(obj, 7);
    if e.relations.Some? {
      ShareVisibilityCodec.IdListReadsBack(c, obj, "relations", e.relations.value);
    }
  }
}
