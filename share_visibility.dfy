/** `ShareVisibility.toJson`, `toObject` and `toList`: who a shared resource is visible to. */
module ShareVisibilityCodec {
  import opened Wrappers
  import opened Decimal
  import opened JavaLang
  import opened JavaIo
  import opened Json
  import opened Scan
  import opened Model

  /** `new ShareVisibility()`: null lists and every flag false. */
  const Fresh := ShareVisibility(None, None, None, false, false, false, false)

  /** The document `toJson` writes: the four flags, then the three id lists in a fixed order, a null list written as an empty one. */
  function Document(v: ShareVisibility): Json {
    JObj(Members(v))
  }

  /** The members of `Document`, one per key. */
  function Members(v: ShareVisibility): (ms: seq<(string, Json)>)
    ensures |ms| == 7
    ensures ms[0] == ("allCommunities", JBool(v.allCommunities))
    ensures ms[1] == ("allKnownCommunities", JBool(v.allKnownCommunities))
    ensures ms[2] == ("allKnownUsers", JBool(v.allKnownUsers)) && ms[3] == ("allUsers", JBool(v.allUsers))
    ensures ms[4] == ("communityIds", JArr(Nums(v.communityIds.GetOr([]))))
    ensures ms[5] == ("groupIds", JArr(Nums(v.groupIds.GetOr([]))))
    ensures ms[6] == ("userIds", JArr(Nums(v.userIds.GetOr([]))))
    ensures DistinctKeys(ms)
  {
    [("allCommunities", JBool(v.allCommunities)),
     ("allKnownCommunities", JBool(v.allKnownCommunities)),
     ("allKnownUsers", JBool(v.allKnownUsers)),
     ("allUsers", JBool(v.allUsers)),
     ("communityIds", JArr(Nums(v.communityIds.GetOr([])))),
     ("groupIds", JArr(Nums(v.groupIds.GetOr([])))),
     ("userIds", JArr(Nums(v.userIds.GetOr([]))))]
  }

  /** The text between the brackets of an id array: the decimal ids, separated by commas. */
  function IdsText(ids: seq<Long>): string {
    if |ids| == 0 then ""
    else if |ids| == 1 then LongText(ids[0])
    else IdsText(ids[..|ids| - 1]) + "," + LongText(ids[|ids| - 1])
  }

  /** The id text is the compact JSON array body of the ids. */
  lemma {:induction false} IdsTextPrints(quote: string -> string, ids: seq<Long>)
    ensures IdsText(ids) == PrintItems(quote, Nums(ids))
  {
    if |ids| > 1 {
      var n := |ids| - 1;
      assert Nums(ids)[..n] == Nums(ids[..n]);
      IdsTextPrints(quote, ids[..n]);
    }
  }

  /** n ids are separated by exactly n - 1 commas, with none at either end. */
  lemma {:induction false} IdsTextCommas(ids: seq<Long>)
    ensures multiset(IdsText(ids))[','] == if |ids| == 0 then 0 else |ids| - 1
    ensures |ids| > 0 ==> |IdsText(ids)| > 0 && IdsText(ids)[0] != ',' && IdsText(ids)[|IdsText(ids)| - 1] != ','
  {
    if |ids| > 0 {
      var n := |ids| - 1;
      var last := LongText(ids[n]);
      assert ',' !in last;
      assert multiset(last)[','] == 0;
      if n > 0 {
        IdsTextCommas(ids[..n]);
        var front := IdsText(ids[..n]);
        assert IdsText(ids) == front + "," + last;
        assert multiset(front + "," + last) == multiset(front) + multiset{','} + multiset(last);
      }
    }
  }

  /** One more id extends the id text by that id, after a comma unless it is the first. */
  lemma IdsTextStep(ids: seq<Long>, k: nat)
    requires k < |ids|
    ensures IdsText(ids[..k + 1]) == if k == 0 then LongText(ids[0]) else IdsText(ids[..k]) + "," + LongText(ids[k])
  {
    assert ids[..k + 1][..k] == ids[..k];
  }

  /** Writes the ids of a list, a null list writing nothing; the comma goes before every id but the first. */
  method WriteIds(writer: StringWriter, ids: Option<seq<Long>>)
    modifies writer
    ensures writer.buffer == old(writer.buffer) + IdsText(ids.GetOr([]))
  {
    if ids.Some? {
      var list := ids.value;
      var isFirst := true;
      for k := 0 to |list|
        invariant isFirst <==> k == 0
        invariant writer.buffer == old(writer.buffer) + IdsText(list[..k])
      {
        IdsTextStep(list, k);
        if !isFirst {
          writer.Write(",");
          Regroup(old(writer.buffer), IdsText(list[..k]), ",", LongText(list[k]));
        }
        writer.Write(LongText(list[k]));
        isFirst := false;
      }
      assert list[..|list|] == list;
    }
  }

  /**
   * `toJson`: the compact text of `Document(v)` (the flags as `true`/`false`, then the id
   * arrays). A null visibility throws, so the caller must pass one.
   */
  method ToJson(v: ShareVisibility) returns (r: string)
    ensures forall quote :: QuotesPlain(quote) ==> r == Print(quote, Document(v))
  {
    var writer := new StringWriter();
    writer.Write("{");
    ghost var b0 := writer.buffer;
    writer.Write(LiteralKey("allCommunities") + BooleanText(v.allCommunities) + ",");
    ghost var b1 := writer.buffer;
    writer.Write(LiteralKey("allKnownCommunities") + BooleanText(v.allKnownCommunities) + ",");
    ghost var b2 := writer.buffer;
    writer.Write(LiteralKey("allKnownUsers") + BooleanText(v.allKnownUsers) + ",");
    ghost var b3 := writer.buffer;
    writer.Write(LiteralKey("allUsers") + BooleanText(v.allUsers) + ",");
    ghost var b4 := writer.buffer;
    writer.Write(LiteralKey("communityIds") + "[");
    WriteIds(writer, v.communityIds);
    writer.Write("],");
    ghost var b5 := writer.buffer;
    writer.Write(LiteralKey("groupIds") + "[");
    WriteIds(writer, v.groupIds);
    writer.Write("],");
    ghost var b6 := writer.buffer;
    writer.Write(LiteralKey("userIds") + "[");
    WriteIds(writer, v.userIds);
    writer.Write("]");
    writer.Write("}");
    r := writer.buffer;
    forall quote | QuotesPlain(quote)
      ensures r == Print(quote, Document(v))
    {
      PlainKeysQuoted(quote);
      WrittenText(quote, v, b0, b1, b2, b3, b4, b5, b6, r);
    }
  }

  /** The text after each write of `toJson` is the document opened up to that member. */
  lemma WrittenText(quote: string -> string, v: ShareVisibility, b0: string, b1: string, b2: string, b3: string,
                    b4: string, b5: string, b6: string, b7: string)
    requires QuotesKeys(quote)
    requires b0 == "{"
    requires b1 == b0 + (LiteralKey("allCommunities") + BooleanText(v.allCommunities) + ",")
    requires b2 == b1 + (LiteralKey("allKnownCommunities") + BooleanText(v.allKnownCommunities) + ",")
    requires b3 == b2 + (LiteralKey("allKnownUsers") + BooleanText(v.allKnownUsers) + ",")
    requires b4 == b3 + (LiteralKey("allUsers") + BooleanText(v.allUsers) + ",")
    requires b5 == b4 + (LiteralKey("communityIds") + "[") + IdsText(v.communityIds.GetOr([])) + "],"
    requires b6 == b5 + (LiteralKey("groupIds") + "[") + IdsText(v.groupIds.GetOr([])) + "],"
    requires b7 == b6 + (LiteralKey("userIds") + "[") + IdsText(v.userIds.GetOr([])) + "]" + "}"
    ensures b7 == Print(quote, Document(v))
  {
    var ms := Members(v);
    FlagsText(quote, v, ms, b0, b1, b2, b3, b4);
    IdsStep(quote, ms, 4, "communityIds", v.communityIds.GetOr([]), b4);
    IdsStep(quote, ms, 5, "groupIds", v.groupIds.GetOr([]), b5);
    IdsClose(quote, ms, "userIds", v.userIds.GetOr([]), b6);
  }

  /** The four flags written after the opening brace open the first four members. */
  lemma FlagsText(quote: string -> string, v: ShareVisibility, ms: seq<(string, Json)>,
                  b0: string, b1: string, b2: string, b3: string, b4: string)
    requires QuotesKeys(quote)
    requires |ms| > 4 && ms[0] == ("allCommunities", JBool(v.allCommunities))
    requires ms[1] == ("allKnownCommunities", JBool(v.allKnownCommunities))
    requires ms[2] == ("allKnownUsers", JBool(v.allKnownUsers)) && ms[3] == ("allUsers", JBool(v.allUsers))
    requires b0 == "{"
    requires b1 == b0 + (LiteralKey("allCommunities") + BooleanText(v.allCommunities) + ",")
    requires b2 == b1 + (LiteralKey("allKnownCommunities") + BooleanText(v.allKnownCommunities) + ",")
    requires b3 == b2 + (LiteralKey("allKnownUsers") + BooleanText(v.allKnownUsers) + ",")
    requires b4 == b3 + (LiteralKey("allUsers") + BooleanText(v.allUsers) + ",")
    ensures b4 == Opened(quote, ms[..4])
  {
    assert b0 == Opened(quote, ms[..0]);
    FlagStep(quote, ms, 0, "allCommunities", v.allCommunities, b0);
    FlagStep(quote, ms, 1, "allKnownCommunities", v.allKnownCommunities, b1);
    FlagStep(quote, ms, 2, "allKnownUsers", v.allKnownUsers, b2);
    FlagStep(quote, ms, 3, "allUsers", v.allUsers, b3);
  }

  /** The quoting routine writes each key of `Document` as `toJson` spells it out. */
  ghost predicate QuotesKeys(quote: string -> string) {
    quote("allCommunities") + ":" == LiteralKey("allCommunities") &&
    quote("allKnownCommunities") + ":" == LiteralKey("allKnownCommunities") &&
    quote("allKnownUsers") + ":" == LiteralKey("allKnownUsers") &&
    quote("allUsers") + ":" == LiteralKey("allUsers") &&
    quote("communityIds") + ":" == LiteralKey("communityIds") &&
    quote("groupIds") + ":" == LiteralKey("groupIds") &&
    quote("userIds") + ":" == LiteralKey("userIds")
  }

  /** The keys are letters only. */
  lemma KeysPlain()
    ensures IsPlain("allCommunities") && IsPlain("allKnownCommunities") && IsPlain("allKnownUsers") && IsPlain("allUsers")
    ensures IsPlain("communityIds") && IsPlain("groupIds") && IsPlain("userIds")
  {
  }

  /** The keys are plain letters, so a quoting routine that leaves plain text alone quotes them as written. */
  lemma PlainKeysQuoted(quote: string -> string)
    requires QuotesPlain(quote)
    ensures QuotesKeys(quote)
  {
    KeysPlain();
    KeyText(quote, "allCommunities");
    KeyText(quote, "allKnownCommunities");
    KeyText(quote, "allKnownUsers");
    KeyText(quote, "allUsers");
    KeyText(quote, "communityIds");
    KeyText(quote, "groupIds");
    KeyText(quote, "userIds");
  }

  /** Writing a flag, after the members before it, opens one more member. */
  lemma FlagStep(quote: string -> string, ms: seq<(string, Json)>, k: nat, key: string, flag: bool, before: string)
    requires quote(key) + ":" == LiteralKey(key)
    requires k < |ms| && ms[k] == (key, JBool(flag)) && before == Opened(quote, ms[..k])
    ensures before + (LiteralKey(key) + BooleanText(flag) + ",") == Opened(quote, ms[..k + 1])
  {
    WriteStep(quote, ms, k, before, LiteralKey(key), BooleanText(flag));
      }

  /** Writing an id list and a comma, after the members before it, opens one more member. */
  lemma IdsStep(quote: string -> string, ms: seq<(string, Json)>, k: nat, key: string, ids: seq<Long>, before: string)
    requires quote(key) + ":" == LiteralKey(key)
    requires k < |ms| && ms[k] == (key, JArr(Nums(ids))) && before == Opened(quote, ms[..k])
    ensures before + (LiteralKey(key) + "[") + IdsText(ids) + "]," == Opened(quote, ms[..k + 1])
  {
    IdsTextPrints(quote, ids);
    WriteStep(quote, ms, k, before, LiteralKey(key), "[" + IdsText(ids) + "]");
    Bracketed(before, LiteralKey(key), IdsText(ids), ",");
  }

  /** Writing the last id list and the closing brace completes the document. */
  lemma IdsClose(quote: string -> string, ms: seq<(string, Json)>, key: string, ids: seq<Long>, before: string)
    requires quote(key) + ":" == LiteralKey(key)
    requires |ms| > 0 && ms[|ms| - 1] == (key, JArr(Nums(ids))) && before == Opened(quote, ms[..|ms| - 1])
    ensures before + (LiteralKey(key) + "[") + IdsText(ids) + "]" + "}" == Print(quote, JObj(ms))
  {
    IdsTextPrints(quote, ids);
    WriteClose(quote, ms, before, LiteralKey(key), "[" + IdsText(ids) + "]");
    Bracketed(before, LiteralKey(key), IdsText(ids), "}");
  }

  /** The grouping `toJson` writes a bracketed value in. */
  lemma Bracketed(before: string, keyText: string, text: string, end: string)
    ensures before + (keyText + "[") + text + ("]" + end) == before + keyText + ("[" + text + "]") + end
  {
  }

  /**
   * One id list of `toObject`: `Some(None)` (the list stays null) when the key is absent
   * or null; otherwise the ids before the first blank element, and `None` (a
   * `JSONException`) when the value is not an array or one of those elements is no number.
   */
  function IdList(c: Codec, obj: seq<(string, Json)>, key: string): (r: Option<Option<seq<Long>>>)
    ensures IsNull(obj, key) ==> r == Some(None)
    ensures !IsNull(obj, key) ==>
      (r.Some? <==> GetArray(obj, key).Some? && LongsOf(c.longOfText, Prefix(GetArray(obj, key).value)).Some?)
    ensures !IsNull(obj, key) && r.Some? ==>
      r.value == LongsOf(c.longOfText, Prefix(GetArray(obj, key).value))
  {
    if IsNull(obj, key) then Some(None)
    else
      var items :- GetArray(obj, key);
      var ids :- LongsOf(c.longOfText, Prefix(items));
      Some(Some(ids))
  }

  /** What `toObject` returns: `None` for text that is not an object, a missing flag or a bad id list. */
  function Decode(c: Codec, json: string): (r: Option<ShareVisibility>)
    ensures r.Some? ==> ObjectOf(c.parse, json).Some?
    ensures r.Some? ==> var obj := ObjectOf(c.parse, json).value;
      GetBoolean(obj, "allCommunities") == Some(r.value.allCommunities) &&
      GetBoolean(obj, "allKnownCommunities") == Some(r.value.allKnownCommunities) &&
      GetBoolean(obj, "allKnownUsers") == Some(r.value.allKnownUsers) &&
      GetBoolean(obj, "allUsers") == Some(r.value.allUsers) &&
      IdList(c, obj, "communityIds") == Some(r.value.communityIds) &&
      IdList(c, obj, "groupIds") == Some(r.value.groupIds) &&
      IdList(c, obj, "userIds") == Some(r.value.userIds)
  {
    var obj :- ObjectOf(c.parse, json);
    var allCommunities :- GetBoolean(obj, "allCommunities");
    var allKnownCommunities :- GetBoolean(obj, "allKnownCommunities");
    var allKnownUsers :- GetBoolean(obj, "allKnownUsers");
    var allUsers :- GetBoolean(obj, "allUsers");
    var communityIds :- IdList(c, obj, "communityIds");
    var groupIds :- IdList(c, obj, "groupIds");
    var userIds :- IdList(c, obj, "userIds");
    Some(ShareVisibility(userIds, groupIds, communityIds, allKnownUsers, allKnownCommunities, allUsers, allCommunities))
  }

  /** Every one of the four flags is required: one missing or unreadable makes `toObject` return null. */
  lemma MissingFlagFails(c: Codec, json: string)
    requires ObjectOf(c.parse, json).Some?
    requires var obj := ObjectOf(c.parse, json).value;
      GetBoolean(obj, "allCommunities").None? || GetBoolean(obj, "allKnownCommunities").None? ||
      GetBoolean(obj, "allKnownUsers").None? || GetBoolean(obj, "allUsers").None?
    ensures Decode(c, json).None?
  {
  }

  /** `toObject`, setting the fields one after another as the source's setters do. */
  method ToObject(c: Codec, json: string) returns (r: Option<ShareVisibility>)
    ensures r == Decode(c, json)
  {
    var obj :- ObjectOf(c.parse, json);
    var visibility := Fresh;
    var flag :- GetBoolean(obj, "allCommunities");
    visibility := visibility.(allCommunities := flag);
    flag :- GetBoolean(obj, "allKnownCommunities");
    visibility := visibility.(allKnownCommunities := flag);
    flag :- GetBoolean(obj, "allKnownUsers");
    visibility := visibility.(allKnownUsers := flag);
    flag :- GetBoolean(obj, "allUsers");
    visibility := visibility.(allUsers := flag);

    var communityIds :- ReadIdList(c, obj, "communityIds");
    visibility := visibility.(communityIds := communityIds);
    var groupIds :- ReadIdList(c, obj, "groupIds");
    visibility := visibility.(groupIds := groupIds);
    var userIds :- ReadIdList(c, obj, "userIds");
    visibility := visibility.(userIds := userIds);
    r := Some(visibility);
  }

  /** One id-list block of `toObject`: the list stays null when the key is null, else the scan loop reads it. */
  method ReadIdList(c: Codec, obj: seq<(string, Json)>, key: string) returns (r: Option<Option<seq<Long>>>)
    ensures r == IdList(c, obj, key)
  {
    if IsNull(obj, key) {
      return Some(None);
    }
    var items :- GetArray(obj, key);
    var elements :- ReadLongs(c.quote, c.longOfText, items);
    r := Some(Some(elements));
  }

  /** The element decoder `toList` applies. */
  function Decoder(c: Codec): string -> Option<ShareVisibility> {
    s => Decode(c, s)
  }

  /** `toList`: null unless the text is an array; otherwise `toObject` of each element before the first blank one. */
  method ToList(c: Codec, json: string) returns (r: Option<seq<Option<ShareVisibility>>>)
    ensures r == DecodeList(c.parse, c.quote, json, Decoder(c))
  {
    r := ReadList(c.parse, c.quote, json, Decoder(c));
  }

  /**
   * Round trip: decoding the document `toJson` writes gives back the visibility, every
   * flag and every id list in order, except that a null list comes back empty.
   */
  lemma RoundTrip(c: Codec, v: ShareVisibility)
    requires ParsesPrinted(c.parse, c.quote)
    ensures Decode(c, Print(c.quote, Document(v))) ==
      Some(v.(userIds := Some(v.userIds.GetOr([])),
              groupIds := Some(v.groupIds.GetOr([])),
              communityIds := Some(v.communityIds.GetOr([]))))
  {
    var obj := Members(v);
    assert ObjectOf(c.parse, Print(c.quote, Document(v))) == Some(obj);
    DocumentFlags(v);
    DocumentIds(c, v);
  }

  /** Each flag reads back from the document. */
  lemma DocumentFlags(v: ShareVisibility)
    ensures var obj := Members(v);
      GetBoolean(obj, "allCommunities") == Some(v.allCommunities) &&
      GetBoolean(obj, "allKnownCommunities") == Some(v.allKnownCommunities) &&
      GetBoolean(obj, "allKnownUsers") == Some(v.allKnownUsers) &&
      GetBoolean(obj, "allUsers") == Some(v.allUsers)
  {
    var obj := Members(v);
    GetDistinct(obj, 0);
    GetDistinct(obj, 1);
    GetDistinct(obj, 2);
    GetDistinct(obj, 3);
  }

  /** Each id list reads back from the document. */
  lemma DocumentIds(c: Codec, v: ShareVisibility)
    ensures var obj := Members(v);
      IdList(c, obj, "communityIds") == Some(Some(v.communityIds.GetOr([]))) &&
      IdList(c, obj, "groupIds") == Some(Some(v.groupIds.GetOr([]))) &&
      IdList(c, obj, "userIds") == Some(Some(v.userIds.GetOr([])))
  {
    var obj := Members(v);
    GetDistinct(obj, 4);
    IdListReadsBack(c, obj, "communityIds", v.communityIds.GetOr([]));
    GetDistinct(obj, 5);
    IdListReadsBack(c, obj, "groupIds", v.groupIds.GetOr([]));
    GetDistinct(obj, 6);
    IdListReadsBack(c, obj, "userIds", v.userIds.GetOr([]));
  }

  /** An id list written as an array of numbers reads back as the ids. */
  lemma IdListReadsBack(c: Codec, obj: seq<(string, Json)>, key: string, ids: seq<Long>)
    requires Get(obj, key) == Some(JArr(Nums(ids)))
    ensures IdList(c, obj, key) == Some(Some(ids))
  {
    ReadsBackNums(c.longOfText, ids);
  }
}
