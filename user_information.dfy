/** `UserInformation.toObject`: the faculty and position of a user. */
module UserInformationCodec {
  import opened Wrappers
  import opened Json
  import opened Model

  /** Both fields `toObject` reads are present. */
  predicate Readable(c: Codec, obj: seq<(string, Json)>) {
    GetString(c.quote, obj, "faculty").Some? && GetString(c.quote, obj, "position").Some?
  }

  /** `toObject`: `None` (null) unless the text is an object holding both a faculty and a position. */
  function ToObject(c: Codec, json: string): (r: Option<UserInformation>)
    ensures r.Some? <==> ObjectOf(c.parse, json).Some? && Readable(c, ObjectOf(c.parse, json).value)
    ensures r.Some? ==> var obj := ObjectOf(c.parse, json).value;
      r.value.faculty == GetString(c.quote, obj, "faculty") &&
      r.value.position == GetString(c.quote, obj, "position")
  {
    var obj :- ObjectOf(c.parse, json);
    var faculty :- GetString(c.quote, obj, "faculty");
    var position :- GetString(c.quote, obj, "position");
    Some(UserInformation(Some(faculty), Some(position)))
  }

  /** The document of a user information with both fields set. */
  function Document(faculty: string, position: string): Json {
    JObj([("faculty", JStr(faculty)), ("position", JStr(position))])
  }

  /** An object with a faculty string and a position string reads back as those two strings. */
  lemma ReadsDocument(c: Codec, faculty: string, position: string)
    requires ParsesPrinted(c.parse, c.quote)
    ensures ToObject(c, Print(c.quote, Document(faculty, position))) == Some(UserInformation(Some(faculty), Some(position)))
  {
    var obj := Document(faculty, position).members;
    assert ObjectOf(c.parse, Print(c.quote, Document(faculty, position))) == Some(obj);
    assert DistinctKeys(obj);
    GetDistinct(obj, 0);
    GetDistinct(obj, 1);
  }
}
