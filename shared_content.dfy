/** `SharedContent.compareTo`, `toObject` and `toList`: a resource shared with a user. */
module SharedContentCodec {
  import opened Wrappers
  import opened Decimal
  import opened Json
  import opened Scan
  import opened Model
  import MinimalProfileCodec

  /** `java.util.Date.compareTo`: the sign of the difference of the epoch milliseconds. */
  function DateCompare(d: Date, e: Date): (r: int)
    ensures r == -1 || r == 0 || r == 1
    ensures r < 0 <==> d.millis < e.millis
    ensures r == 0 <==> d == e
  {
    if d.millis < e.millis then -1 else if d.millis == e.millis then 0 else 1
  }

  /**
   * `compareTo` as written: `None` stands for the `NullPointerException` that
   * `Date.compareTo(null)` throws when this date is set and the other one is null.
   */
  function CompareAsWritten(a: SharedContent, b: SharedContent): Option<int> {
    if a.creationDate.Some? then
      if b.creationDate.None? then None else Some(DateCompare(a.creationDate.value, b.creationDate.value))
    else if b.creationDate.Some? then Some(-1)
    else Some(0)
  }

  /** With a null own date, the content sorts before one with a date and level with one without. */
  lemma AsWrittenNullFirst(a: SharedContent, b: SharedContent)
    requires a.creationDate.None?
    ensures CompareAsWritten(a, b) == Some(if b.creationDate.Some? then -1 else 0)
  {
  }

  /** With two dates, the contents are ordered by date, and every content is level with itself. */
  lemma AsWrittenByDate(a: SharedContent, b: SharedContent)
    requires a.creationDate.Some? && b.creationDate.Some?
    ensures CompareAsWritten(a, b).Some?
    ensures CompareAsWritten(a, b).value < 0 <==> a.creationDate.value.millis < b.creationDate.value.millis
    ensures CompareAsWritten(a, b).value == 0 <==> a.creationDate == b.creationDate
    ensures CompareAsWritten(a, a) == Some(0)
  {
  }

  /**
   * The as-written order breaks the `Comparable` contract: a content without a date
   * compares as smaller than one with a date, but the reverse comparison throws.
   */
  lemma AsWrittenNotAntisymmetric()
    ensures var undated := SharedContent(1, None, None, None, 1, None, None);
      var dated := SharedContent(2, None, None, None, 1, Some(Date(0)), None);
      CompareAsWritten(undated, dated) == Some(-1) && CompareAsWritten(dated, undated).None?
  {
  }

  /** The order `compareTo` evidently means: by date, with the contents without a date first. */
  function Compare(a: SharedContent, b: SharedContent): (r: int)
    ensures r == -1 || r == 0 || r == 1
  {
    match (a.creationDate, b.creationDate)
    case (Some(d), Some(e)) => DateCompare(d, e)
    case (None, Some(_)) => -1
    case (Some(_), None) => 1
    case (None, None) => 0
  }

  /** Wherever `compareTo` as written returns, it returns what `Compare` does. */
  lemma CompareAgrees(a: SharedContent, b: SharedContent)
    ensures CompareAsWritten(a, b).Some? ==> CompareAsWritten(a, b) == Some(Compare(a, b))
    ensures CompareAsWritten(a, b).None? <==> a.creationDate.Some? && b.creationDate.None?
  {
  }

  /** `Compare` is antisymmetric, and it is zero exactly for equal (or both null) dates. */
  lemma CompareAntisymmetric(a: SharedContent, b: SharedContent)
    ensures Compare(a, b) == -Compare(b, a)
    ensures Compare(a, b) == 0 <==> a.creationDate == b.creationDate
  {
  }

  /** `Compare` is transitive, so it is a total preorder on contents. */
  lemma CompareTransitive(a: SharedContent, b: SharedContent, c: SharedContent)
    requires Compare(a, b) <= 0 && Compare(b, c) <= 0
    ensures Compare(a, c) <= 0
  {
  }

  /** `elements.toArray(new String[1])`: the elements, or one null slot when there are none. */
  function ToArray(elements: seq<string>): (r: seq<Option<string>>)
    ensures |elements| == 0 ==> r == [None]
    ensures |elements| > 0 ==> |r| == |elements| && forall i :: 0 <= i < |r| ==> r[i] == Some(elements[i])
  {
    if |elements| == 0 then [None] else seq(|elements|, i requires 0 <= i < |elements| => Some(elements[i]))
  }

  /**
   * The tags block of `toObject`: `Some(None)` (the tags stay null) when the key is
   * absent or null; otherwise the array of the texts before the first blank element, and
   * `None` (a `JSONException`) when the value is not an array.
   */
  function TagArray(c: Codec, obj: seq<(string, Json)>): (r: Option<Option<seq<Option<string>>>>)
    ensures IsNull(obj, "tags") ==> r == Some(None)
    ensures !IsNull(obj, "tags") ==> (r.Some? <==> GetArray(obj, "tags").Some?)
    ensures !IsNull(obj, "tags") && r.Some? ==> r.value == Some(ToArray(Texts(c.quote, Prefix(GetArray(obj, "tags").value))))
  {
    if IsNull(obj, "tags") then Some(None)
    else
      var items :- GetArray(obj, "tags");
      Some(Some(ToArray(Texts(c.quote, Prefix(items)))))
  }

  /** The loop of the tags block and the `toArray` after it. */
  method ReadTags(c: Codec, obj: seq<(string, Json)>) returns (r: Option<Option<seq<Option<string>>>>)
    ensures r == TagArray(c, obj)
  {
    if IsNull(obj, "tags") {
      return Some(None);
    }
    var items :- GetArray(obj, "tags");
    var elements := ReadStrings(c.quote, items);
    r := Some(Some(ToArray(elements)));
  }

  /** Every member `toObject` reads is present and readable. */
  predicate Readable(c: Codec, obj: seq<(string, Json)>) {
    GetLong(c.longOfText, obj, "entityId").Some? && GetString(c.quote, obj, "entityType").Some? &&
    GetLong(c.longOfText, obj, "creationDate").Some? && GetLong(c.longOfText, obj, "ownerId").Some? &&
    TagArray(c, obj).Some? && GetString(c.quote, obj, "title").Some? && GetString(c.quote, obj, "user").Some?
  }

  /**
   * What `toObject` returns: `None` (null) unless the text is an object all of whose
   * members read; the creation date is the date at the epoch milliseconds of its member,
   * and the user is `MinimalProfile.toObject` of the text of the user member.
   */
  function Decode(c: Codec, json: string): (r: Option<SharedContent>)
    ensures r.Some? <==> ObjectOf(c.parse, json).Some? && Readable(c, ObjectOf(c.parse, json).value)
    ensures r.Some? ==> var obj := ObjectOf(c.parse, json).value;
      GetLong(c.longOfText, obj, "entityId") == Some(r.value.entityId) &&
      GetLong(c.longOfText, obj, "ownerId") == Some(r.value.ownerId) &&
      GetString(c.quote, obj, "entityType") == r.value.entityType &&
      GetString(c.quote, obj, "title") == r.value.title
    ensures r.Some? ==> var obj := ObjectOf(c.parse, json).value;
      r.value.creationDate == Some(Date(GetLong(c.longOfText, obj, "creationDate").value)) &&
      TagArray(c, obj) == Some(r.value.tags) &&
      r.value.user == MinimalProfileCodec.ToObject(c, GetString(c.quote, obj, "user").value)
  {
    var obj :- ObjectOf(c.parse, json);
    var entityId :- GetLong(c.longOfText, obj, "entityId");
    var entityType :- GetString(c.quote, obj, "entityType");
    var creationDate :- GetLong(c.longOfText, obj, "creationDate");
    var ownerId :- GetLong(c.longOfText, obj, "ownerId");
    var tags :- TagArray(c, obj);
    var title :- GetString(c.quote, obj, "title");
    var user :- GetString(c.quote, obj, "user");
    Some(SharedContent(entityId, Some(entityType), Some(title), tags, ownerId, Some(Date(creationDate)),
      MinimalProfileCodec.ToObject(c, user)))
  }

  /** An empty tag array (or one starting with a blank element) decodes as one null tag. */
  lemma EmptyTagsOneNull(c: Codec, json: string, items: seq<Json>)
    requires ObjectOf(c.parse, json).Some? && Readable(c, ObjectOf(c.parse, json).value)
    requires Get(ObjectOf(c.parse, json).value, "tags") == Some(JArr(items))
    requires |items| == 0 || Blank(items[0])
    ensures Decode(c, json).Some? && Decode(c, json).value.tags == Some([None])
  {
    var obj := ObjectOf(c.parse, json).value;
    assert GetArray(obj, "tags") == Some(items);
    assert Prefix(items) == [];
    assert TagArray(c, obj) == Some(Some([None]));
  }

  /** A user member that is present but is no readable profile leaves the user null; the content is still returned. */
  lemma MalformedUserKept(c: Codec, json: string)
    requires ObjectOf(c.parse, json).Some? && Readable(c, ObjectOf(c.parse, json).value)
    requires MinimalProfileCodec.ToObject(c, GetString(c.quote, ObjectOf(c.parse, json).value, "user").value).None?
    ensures Decode(c, json).Some? && Decode(c, json).value.user.None?
  {
  }

  /** `toObject`, setting the fields one after another as the source's setters do. */
  method ToObject(c: Codec, json: string) returns (r: Option<SharedContent>)
    ensures r == Decode(c, json)
  {
    var obj :- ObjectOf(c.parse, json);
    var content := SharedContent(0, None, None, None, 0, None, None);
    var n :- GetLong(c.longOfText, obj, "entityId");
    content := content.(entityId := n);
    var text :- GetString(c.quote, obj, "entityType");
    content := content.(entityType := Some(text));
    n :- GetLong(c.longOfText, obj, "creationDate");
    content := content.(creationDate := Some(Date(n)));
    n :- GetLong(c.longOfText, obj, "ownerId");
    content := content.(ownerId := n);
    var tags :- ReadTags(c, obj);
    content := content.(tags := tags);
    text :- GetString(c.quote, obj, "title");
    content := content.(title := Some(text));
    text :- GetString(c.quote, obj, "user");
    content := content.(user := MinimalProfileCodec.ToObject(c, text));
    r := Some(content);
  }

  /** The element decoder `toList` applies. */
  function Decoder(c: Codec): string -> Option<SharedContent> {
    s => Decode(c, s)
  }

  /** `toList`: null unless the text is an array; otherwise `toObject` of each element before the first blank one. */
  method ToList(c: Codec, json: string) returns (r: Option<seq<Option<SharedContent>>>)
    ensures r == DecodeList(c.parse, c.quote, json, Decoder(c))
  {
    r := ReadList(c.parse, c.quote, json, Decoder(c));
  }
}
