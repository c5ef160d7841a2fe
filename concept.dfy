/** `Concept.toJson`, `toObject` and `toList`: a semantic tag. */
module ConceptCodec {
  import opened Wrappers
  import opened Decimal
  import opened Json
  import opened Scan
  import opened Model

  /** The JSON value of a nullable id. */
  function IdValue(id: Option<Long>): Json {
    match id
    case None => JNull
    case Some(n) => JNum(n)
  }

  /** String concatenation of a nullable `Long`: the decimal text, or `null`. */
  function IdText(id: Option<Long>): (s: string)
    ensures forall quote :: s == Print(quote, IdValue(id))
  {
    match id
    case None => "null"
    case Some(n) => LongText(n)
  }

  /** The document `toJson` writes: the id, then the three strings with null written as "". */
  function Document(c: Concept): Json {
    JObj(Members(c))
  }

  /** The members of `Document`, one per key. */
  function Members(c: Concept): (ms: seq<(string, Json)>)
    ensures |ms| == 4 && ms[0] == ("id", IdValue(c.id))
    ensures ms[1] == ("description", JStr(c.description.GetOr("")))
    ensures ms[2] == ("name", JStr(c.name.GetOr(""))) && ms[3] == ("summary", JStr(c.summary.GetOr("")))
    ensures DistinctKeys(ms)
  {
    [("id", IdValue(c.id)),
     ("description", JStr(c.description.GetOr(""))),
     ("name", JStr(c.name.GetOr(""))),
     ("summary", JStr(c.summary.GetOr("")))]
  }

  /** `toJson`: one write per member, each key spelled out, the id unquoted and the strings quoted. */
  function ToJson(quote: string -> string, c: Concept): string {
    "{" +
    (LiteralKey("id") + IdText(c.id) + ",") +
    (LiteralKey("description") + quote(c.description.GetOr("")) + ",") +
    (LiteralKey("name") + quote(c.name.GetOr("")) + ",") +
    (LiteralKey("summary") + quote(c.summary.GetOr(""))) +
    "}"
  }

  /** The quoting routine writes each key of `Document` as `toJson` spells it out. */
  ghost predicate QuotesKeys(quote: string -> string) {
    quote("id") + ":" == LiteralKey("id") &&
    quote("description") + ":" == LiteralKey("description") &&
    quote("name") + ":" == LiteralKey("name") &&
    quote("summary") + ":" == LiteralKey("summary")
  }

  /** The keys are letters only. */
  lemma KeysPlain()
    ensures IsPlain("id") && IsPlain("description") && IsPlain("name") && IsPlain("summary")
  {
  }

  /** The keys are plain letters, so a quoting routine that leaves plain text alone quotes them as written. */
  lemma PlainKeysQuoted(quote: string -> string)
    requires QuotesPlain(quote)
    ensures QuotesKeys(quote)
  {
    KeysPlain();
    KeyText(quote, "id");
    KeyText(quote, "description");
    KeyText(quote, "name");
    KeyText(quote, "summary");
  }

  /** `toJson` writes the compact text of `Document(c)`: keys id, description, name, summary in that order. */
  lemma ToJsonPrints(quote: string -> string, c: Concept)
    requires QuotesKeys(quote)
    ensures ToJson(quote, c) == Print(quote, Document(c))
  {
    var ms := Members(c);
    var b0 := "{";
    assert b0 == Opened(quote, ms[..0]);
    WriteLiteralStep(quote, ms, 0, b0, IdText(c.id));
    var b1 := b0 + (LiteralKey("id") + IdText(c.id) + ",");
    WriteLiteralStep(quote, ms, 1, b1, quote(c.description.GetOr("")));
    var b2 := b1 + (LiteralKey("description") + quote(c.description.GetOr("")) + ",");
    WriteLiteralStep(quote, ms, 2, b2, quote(c.name.GetOr("")));
    var b3 := b2 + (LiteralKey("name") + quote(c.name.GetOr("")) + ",");
    WriteLiteralClose(quote, ms, b3, quote(c.summary.GetOr("")));
  }

  /** Every field `toObject` reads is present and of a readable type. */
  predicate Readable(c: Codec, obj: seq<(string, Json)>) {
    GetString(c.quote, obj, "description").Some? && GetLong(c.longOfText, obj, "id").Some? &&
    GetString(c.quote, obj, "name").Some? && GetString(c.quote, obj, "summary").Some?
  }

  /**
   * `toObject`: `None` (null) unless the text is an object whose description, name and
   * summary are present and whose id reads as a `long`; the decoded concept has no null field.
   */
  function ToObject(c: Codec, json: string): (r: Option<Concept>)
    ensures r.Some? <==> ObjectOf(c.parse, json).Some? && Readable(c, ObjectOf(c.parse, json).value)
    ensures r.Some? ==> var obj := ObjectOf(c.parse, json).value;
      r.value.id.Some? && GetLong(c.longOfText, obj, "id") == r.value.id &&
      r.value.description.Some? && GetString(c.quote, obj, "description") == r.value.description &&
      r.value.name.Some? && GetString(c.quote, obj, "name") == r.value.name &&
      r.value.summary.Some? && GetString(c.quote, obj, "summary") == r.value.summary
  {
    var obj :- ObjectOf(c.parse, json);
    var description :- GetString(c.quote, obj, "description");
    var id :- GetLong(c.longOfText, obj, "id");
    var name :- GetString(c.quote, obj, "name");
    var summary :- GetString(c.quote, obj, "summary");
    Some(Concept(Some(id), Some(name), Some(description), Some(summary)))
  }

  /** The element decoder `toList` applies. */
  function Decoder(c: Codec): string -> Option<Concept> {
    s => ToObject(c, s)
  }

  /** `toList`: null unless the text is an array; otherwise `toObject` of each element before the first blank one. */
  method ToList(c: Codec, json: string) returns (r: Option<seq<Option<Concept>>>)
    ensures r == DecodeList(c.parse, c.quote, json, Decoder(c))
  {
    r := ReadList(c.parse, c.quote, json, Decoder(c));
  }

  /** The concept `toObject` gives back for `toJson(c)`: null strings come back as "", and a null id makes it fail. */
  function Reread(c: Concept): Option<Concept> {
    if c.id.None? then None
    else Some(Concept(c.id, Some(c.name.GetOr("")), Some(c.description.GetOr("")), Some(c.summary.GetOr(""))))
  }

  /**
   * Round trip: decoding the document `toJson` writes keeps the id and the three strings
   * (null ones as ""); with a null id, `getLong` meets JSON null and `toObject` returns null.
   */
  lemma RoundTrip(c: Codec, concept: Concept)
    requires ParsesPrinted(c.parse, c.quote)
    ensures ToObject(c, Print(c.quote, Document(concept))) == Reread(concept)
  {
    var obj := Members(concept);
    assert ObjectOf(c.parse, Print(c.quote, Document(concept))) == Some(obj);
    assert DistinctKeys(obj);
    GetDistinct(obj, 0);
    GetDistinct(obj, 1);
    GetDistinct(obj, 2);
    GetDistinct(obj, 3);
  }

  /** The round trip on the text `toJson` itself writes, for a quoting routine that leaves plain keys alone. */
  lemma ToJsonRoundTrip(c: Codec, concept: Concept)
    requires ParsesPrinted(c.parse, c.quote) && QuotesPlain(c.quote)
    ensures ToObject(c, ToJson(c.quote, concept)) == Reread(concept)
  {
    PlainKeysQuoted(c.quote);
    ToJsonPrints(c.quote, concept);
    RoundTrip(c, concept);
  }
}
