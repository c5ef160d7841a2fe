/** `EntityType.toObject`: the type of an entity and the concept it stands for. */
module EntityTypeCodec {
  import opened Wrappers
  import opened Json
  import opened Model
  import ConceptCodec

  /** The members `toObject` reads are present and readable. */
  predicate Readable(c: Codec, obj: seq<(string, Json)>) {
    GetLong(c.longOfText, obj, "id").Some? && GetString(c.quote, obj, "name").Some? &&
    GetString(c.quote, obj, "concept").Some?
  }

  /**
   * `toObject`: `None` (null) unless the text is an object with an id, a name and a
   * concept member; the concept is `Concept.toObject` of that member's text, so a
   * malformed concept leaves it null without failing the type.
   */
  function ToObject(c: Codec, json: string): (r: Option<EntityType>)
    ensures r.Some? <==> ObjectOf(c.parse, json).Some? && Readable(c, ObjectOf(c.parse, json).value)
    ensures r.Some? ==> var obj := ObjectOf(c.parse, json).value;
      GetLong(c.longOfText, obj, "id") == Some(r.value.id) &&
      GetString(c.quote, obj, "name") == r.value.name &&
      r.value.concept == ConceptCodec.ToObject(c, GetString(c.quote, obj, "concept").value)
  {
    var obj :- ObjectOf(c.parse, json);
    var id :- GetLong(c.longOfText, obj, "id");
    var name :- GetString(c.quote, obj, "name");
    var concept :- GetString(c.quote, obj, "concept");
    Some(EntityType(id, Some(name), ConceptCodec.ToObject(c, concept)))
  }
}
