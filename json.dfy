/**
 * Parsed JSON as org.json holds it, its compact text form, and the org.json accessors
 * the decoders call. An accessor that would throw `JSONException` returns `None`.
 *
 * The parser itself is not modelled: the decoders receive it as a function from text to
 * an optional document. The compact writer `Print` is modelled; it takes the string
 * quoting routine (`JSONObject.quote`) as a parameter and leaves it uninterpreted.
 */
module Json {
  import opened Wrappers
  import opened Decimal
  import opened JavaLang

  /** An object keeps its members in text order, duplicates included. */
  datatype Json =
    | JNull
    | JBool(b: bool)
    | JNum(n: Long)
    | JStr(s: string)
    | JArr(items: seq<Json>)
    | JObj(members: seq<(string, Json)>)

  /** The compact text of a document, as `JSONObject.toString()` and `JSONArray.toString()` write it. */
  function Print(quote: string -> string, d: Json): string
    decreases d, 1
  {
    match d
    case JNull => "null"
    case JBool(b) => BooleanText(b)
    case JNum(n) => LongText(n)
    case JStr(s) => quote(s)
    case JArr(items) => "[" + PrintItems(quote, items) + "]"
    case JObj(members) => "{" + PrintMembers(quote, members) + "}"
  }

  /** Array elements separated by commas. */
  function PrintItems(quote: string -> string, items: seq<Json>): string
    decreases items, 0
  {
    if |items| == 0 then ""
    else if |items| == 1 then Print(quote, items[0])
    else PrintItems(quote, items[..|items| - 1]) + "," + Print(quote, items[|items| - 1])
  }

  /** Object members `quote(key):value` separated by commas. */
  function PrintMembers(quote: string -> string, members: seq<(string, Json)>): string
    decreases members, 0
  {
    if |members| == 0 then ""
    else
      var last := members[|members| - 1];
      var value := last.1;
      assert last in members && value < last;
      var member := quote(last.0) + ":" + Print(quote, value);
      if |members| == 1 then member
      else PrintMembers(quote, members[..|members| - 1]) + "," + member
  }

  /** The JSON numbers of a list of ids. */
  function Nums(ns: seq<Long>): (r: seq<Json>)
    ensures |r| == |ns| && forall i :: 0 <= i < |ns| ==> r[i] == JNum(ns[i])
  {
    if |ns| == 0 then [] else Nums(ns[..|ns| - 1]) + [JNum(ns[|ns| - 1])]
  }

  /** The JSON strings of a list of texts. */
  function Strs(ss: seq<string>): (r: seq<Json>)
    ensures |r| == |ss| && forall i :: 0 <= i < |ss| ==> r[i] == JStr(ss[i])
  {
    if |ss| == 0 then [] else Strs(ss[..|ss| - 1]) + [JStr(ss[|ss| - 1])]
  }

  /** Printing one more member: a comma, then `quote(key):value`. */
  lemma PrintMembersAppend(quote: string -> string, members: seq<(string, Json)>, key: string, value: Json)
    ensures PrintMembers(quote, members + [(key, value)]) ==
      if |members| == 0 then quote(key) + ":" + Print(quote, value)
      else PrintMembers(quote, members) + "," + quote(key) + ":" + Print(quote, value)
  {
    assert (members + [(key, value)])[..|members|] == members;
  }

  /**
   * What a hand-written encoder has written after the opening brace and the members `ms`,
   * each member followed by a comma.
   */
  function Opened(quote: string -> string, members: seq<(string, Json)>): string {
    if |members| == 0 then "{" else "{" + PrintMembers(quote, members) + ","
  }

  /** Writing member `k` and a comma extends the opened text by one member. */
  lemma OpenedStep(quote: string -> string, members: seq<(string, Json)>, k: nat)
    requires k < |members|
    ensures Opened(quote, members[..k + 1]) ==
      Opened(quote, members[..k]) + (quote(members[k].0) + ":" + Print(quote, members[k].1) + ",")
  {
    assert members[..k + 1] == members[..k] + [members[k]];
    PrintMembersAppend(quote, members[..k], members[k].0, members[k].1);
  }

  /** Writing the key text, the value text and a comma of member `k`, after the members before it, leaves the members up to `k` opened. */
  lemma WriteStep(quote: string -> string, members: seq<(string, Json)>, k: nat, before: string, keyText: string, valueText: string)
    requires k < |members|
    requires before == Opened(quote, members[..k])
    requires keyText == quote(members[k].0) + ":" && valueText == Print(quote, members[k].1)
    ensures before + keyText + valueText + "," == Opened(quote, members[..k + 1])
  {
    OpenedStep(quote, members, k);
    Regroup(before, keyText, valueText, ",");
  }

  /** Four texts written one after another make the first followed by the other three. */
  lemma Regroup(a: string, b: string, c: string, d: string)
    ensures a + b + c + d == a + (b + c + d)
  {
    assert a + b + c + d == (a + b) + (c + d);
  }

  /** Writing the key text and value text of the last member and the closing brace completes the object's compact text. */
  lemma WriteClose(quote: string -> string, members: seq<(string, Json)>, before: string, keyText: string, valueText: string)
    requires |members| > 0
    requires before == Opened(quote, members[..|members| - 1])
    requires keyText == quote(members[|members| - 1].0) + ":" && valueText == Print(quote, members[|members| - 1].1)
    ensures before + keyText + valueText + "}" == Print(quote, JObj(members))
  {
    OpenedClose(quote, members);
  }

  /** Writing the last member and the closing brace completes the compact text of the object. */
  lemma OpenedClose(quote: string -> string, members: seq<(string, Json)>)
    requires |members| > 0
    ensures var k := |members| - 1;
      Print(quote, JObj(members)) ==
      Opened(quote, members[..k]) + (quote(members[k].0) + ":" + Print(quote, members[k].1)) + "}"
  {
    var k := |members| - 1;
    assert members == members[..k] + [members[k]];
    PrintMembersAppend(quote, members[..k], members[k].0, members[k].1);
  }

  /** Writing member `k` with its key spelled out literally, then a comma, opens one more member. */
  lemma WriteLiteralStep(quote: string -> string, members: seq<(string, Json)>, k: nat, before: string, valueText: string)
    requires k < |members| && before == Opened(quote, members[..k])
    requires quote(members[k].0) + ":" == LiteralKey(members[k].0) && valueText == Print(quote, members[k].1)
    ensures before + (LiteralKey(members[k].0) + valueText + ",") == Opened(quote, members[..k + 1])
  {
    OpenedStep(quote, members, k);
  }

  /** Writing the last member with its key spelled out literally, then the closing brace, completes the object. */
  lemma WriteLiteralClose(quote: string -> string, members: seq<(string, Json)>, before: string, valueText: string)
    requires |members| > 0 && before == Opened(quote, members[..|members| - 1])
    requires quote(members[|members| - 1].0) + ":" == LiteralKey(members[|members| - 1].0)
    requires valueText == Print(quote, members[|members| - 1].1)
    ensures before + (LiteralKey(members[|members| - 1].0) + valueText) + "}" == Print(quote, JObj(members))
  {
    OpenedClose(quote, members);
  }

  /**
   * The text of a member value written by the Jackson writer, whose string escaping is
   * `jacksonQuote`, or by org.json, whose string escaping is `quote`.
   */
  function ValueText(quote: string -> string, jacksonQuote: string -> string, v: Json, byJackson: bool): string {
    if byJackson then Print(jacksonQuote, v) else Print(quote, v)
  }

  /** Members `quote(key):value` separated by commas, each value written by its own writer. */
  function HandMembers(quote: string -> string, jacksonQuote: string -> string, members: seq<(string, Json)>,
                       byJackson: seq<bool>): string
    requires |byJackson| == |members|
  {
    if |members| == 0 then ""
    else
      var n := |members| - 1;
      var member := quote(members[n].0) + ":" + ValueText(quote, jacksonQuote, members[n].1, byJackson[n]);
      if n == 0 then member else HandMembers(quote, jacksonQuote, members[..n], byJackson[..n]) + "," + member
  }

  /**
   * The text of an object a hand-written encoder writes: the keys quoted by org.json, and
   * value `i` written by Jackson exactly when `byJackson[i]`.
   */
  function HandWritten(quote: string -> string, jacksonQuote: string -> string, members: seq<(string, Json)>,
                       byJackson: seq<bool>): string
    requires |byJackson| == |members|
  {
    "{" + HandMembers(quote, jacksonQuote, members, byJackson) + "}"
  }

  /** What a hand-written encoder has written after the opening brace and the members, each followed by a comma. */
  function HandOpened(quote: string -> string, jacksonQuote: string -> string, members: seq<(string, Json)>,
                      byJackson: seq<bool>): string
    requires |byJackson| == |members|
  {
    if |members| == 0 then "{" else "{" + HandMembers(quote, jacksonQuote, members, byJackson) + ","
  }

  /** When both writers escape alike, a hand-written object is the compact text of its document. */
  lemma {:induction false} HandMembersPrint(quote: string -> string, members: seq<(string, Json)>, byJackson: seq<bool>)
    requires |byJackson| == |members|
    ensures HandMembers(quote, quote, members, byJackson) == PrintMembers(quote, members)
  {
    if |members| > 1 {
      var n := |members| - 1;
      HandMembersPrint(quote, members[..n], byJackson[..n]);
    }
  }

  /** The same, for the whole object. */
  lemma HandWrittenPrint(quote: string -> string, members: seq<(string, Json)>, byJackson: seq<bool>)
    requires |byJackson| == |members|
    ensures HandWritten(quote, quote, members, byJackson) == Print(quote, JObj(members))
  {
    HandMembersPrint(quote, members, byJackson);
  }

  /** One more member extends the hand-written members by a comma and that member. */
  lemma HandMembersStep(quote: string -> string, jacksonQuote: string -> string, members: seq<(string, Json)>,
                        byJackson: seq<bool>, k: nat)
    requires |byJackson| == |members| && 0 < k < |members|
    ensures HandMembers(quote, jacksonQuote, members[..k + 1], byJackson[..k + 1]) ==
      HandMembers(quote, jacksonQuote, members[..k], byJackson[..k]) + "," +
      (quote(members[k].0) + ":" + ValueText(quote, jacksonQuote, members[k].1, byJackson[k]))
  {
    var ms, bs := members[..k + 1], byJackson[..k + 1];
    assert ms[..k] == members[..k] && bs[..k] == byJackson[..k];
  }

  /** Text between braces, regrouped: the opened text grows by the new member and its comma. */
  lemma {:induction false} Braced(earlier: string, member: string, close: string)
    ensures "{" + (earlier + "," + member) + close == ("{" + earlier + ",") + (member + close)
  {
    Regroup("{" + earlier, ",", member, close);
    Regroup("{", earlier + ",", member, close);
  }

  /** A hand-written encoder's write of member `k`, `key:value,`, after the members before it, opens one more member. */
  lemma HandWrote(quote: string -> string, jacksonQuote: string -> string, members: seq<(string, Json)>,
                  byJackson: seq<bool>, k: nat, before: string, after: string)
    requires |byJackson| == |members| && k < |members|
    requires before == HandOpened(quote, jacksonQuote, members[..k], byJackson[..k])
    requires after == before + (quote(members[k].0) + ":" + ValueText(quote, jacksonQuote, members[k].1, byJackson[k]) + ",")
    ensures after == HandOpened(quote, jacksonQuote, members[..k + 1], byJackson[..k + 1])
  {
    var member := quote(members[k].0) + ":" + ValueText(quote, jacksonQuote, members[k].1, byJackson[k]);
    if k == 0 {
      assert members[..1] == [members[0]] && byJackson[..1] == [byJackson[0]];
      assert HandMembers(quote, jacksonQuote, members[..1], byJackson[..1]) == member;
      Regroup("{", member, ",", "");
    } else {
      HandMembersStep(quote, jacksonQuote, members, byJackson, k);
      Braced(HandMembers(quote, jacksonQuote, members[..k], byJackson[..k]), member, ",");
    }
  }

  /** A hand-written encoder's write of the last member, `key:value`, and of "}" completes the object. */
  lemma HandWroteLast(quote: string -> string, jacksonQuote: string -> string, members: seq<(string, Json)>,
                      byJackson: seq<bool>, before: string, after: string)
    requires |byJackson| == |members| > 0
    requires var n := |members| - 1;
      before == HandOpened(quote, jacksonQuote, members[..n], byJackson[..n])
    requires var n := |members| - 1;
      after == before + (quote(members[n].0) + ":" + ValueText(quote, jacksonQuote, members[n].1, byJackson[n])) + "}"
    ensures after == HandWritten(quote, jacksonQuote, members, byJackson)
  {
    var n := |members| - 1;
    var member := quote(members[n].0) + ":" + ValueText(quote, jacksonQuote, members[n].1, byJackson[n]);
    if n > 0 {
      assert members[..n + 1] == members && byJackson[..n + 1] == byJackson;
      HandMembersStep(quote, jacksonQuote, members, byJackson, n);
      Braced(HandMembers(quote, jacksonQuote, members[..n], byJackson[..n]), member, "}");
    }
  }

  /**
   * The parser reads back every object a hand-written encoder writes, whichever of the
   * two writers wrote each value.
   */
  ghost predicate ParsesHandWritten(parse: string -> Option<Json>, quote: string -> string, jacksonQuote: string -> string) {
    forall members: seq<(string, Json)>, byJackson: seq<bool> {:trigger HandWritten(quote, jacksonQuote, members, byJackson)} | |byJackson| == |members| ::
      parse(HandWritten(quote, jacksonQuote, members, byJackson)) == Some(JObj(members))
  }

  /** Under `ParsesHandWritten`, `new JSONObject` of a hand-written object gives its members back. */
  lemma HandWrittenObject(parse: string -> Option<Json>, quote: string -> string, jacksonQuote: string -> string,
                          members: seq<(string, Json)>, byJackson: seq<bool>)
    requires ParsesHandWritten(parse, quote, jacksonQuote) && |byJackson| == |members|
    ensures ObjectOf(parse, HandWritten(quote, jacksonQuote, members, byJackson)) == Some(members)
  {
    assert parse(HandWritten(quote, jacksonQuote, members, byJackson)) == Some(JObj(members));
  }

  /** The parser reads back every document the compact writer prints. */
  ghost predicate ParsesPrinted(parse: string -> Option<Json>, quote: string -> string) {
    forall d :: parse(Print(quote, d)) == Some(d)
  }

  /** Letters and digits only: text that JSON string quoting never escapes. */
  predicate IsPlain(s: string) {
    forall i :: 0 <= i < |s| ==> IsPlainChar(s[i])
  }

  predicate IsPlainChar(c: char) {
    'a' <= c <= 'z' || 'A' <= c <= 'Z' || '0' <= c <= '9'
  }

  /** Quoting leaves plain text unescaped and only wraps it in double quotes (section 7 of RFC 8259). */
  ghost predicate QuotesPlain(quote: string -> string) {
    forall s :: IsPlain(s) ==> quote(s) == "\"" + s + "\""
  }

  /** A key in double quotes and a colon, as the hand-written encoders spell out their keys. */
  function LiteralKey(key: string): string {
    "\"" + key + "\":"
  }

  /** A plain key followed by a colon, as a quoting routine that leaves plain text alone writes it. */
  lemma KeyText(quote: string -> string, key: string)
    requires QuotesPlain(quote) && IsPlain(key)
    ensures quote(key) + ":" == LiteralKey(key)
  {
  }

  /** `JSONObject.get(key)`: the value of the last member named `key` (a later duplicate replaces an earlier one). */
  function Get(members: seq<(string, Json)>, key: string): (r: Option<Json>)
    ensures r.None? <==> forall i :: 0 <= i < |members| ==> members[i].0 != key
    ensures r.Some? ==> exists i :: 0 <= i < |members| && members[i] == (key, r.value)
  {
    if |members| == 0 then None
    else if members[|members| - 1].0 == key then Some(members[|members| - 1].1)
    else Get(members[..|members| - 1], key)
  }

  /** No two members share a key, as in every document the encoders write. */
  predicate DistinctKeys(members: seq<(string, Json)>) {
    forall i, j :: 0 <= i < j < |members| ==> members[i].0 != members[j].0
  }

  /** In an object whose keys are distinct, `get` finds each member's own value. */
  lemma {:induction false} GetDistinct(members: seq<(string, Json)>, i: nat)
    requires i < |members| && DistinctKeys(members)
    ensures Get(members, members[i].0) == Some(members[i].1)
  {
    var n := |members| - 1;
    if i < n {
      assert members[i].0 != members[n].0;
      assert members[..n][i] == members[i];
      GetDistinct(members[..n], i);
    }
  }

  /** The string form org.json gives any value (`getString`, `optString`): a string is itself, anything else its compact text. */
  function Text(quote: string -> string, v: Json): (s: string)
    ensures s == "" <==> v == JStr("")
  {
    if v.JStr? then v.s else Print(quote, v)
  }

  /** `getString(key)`: fails only when the key is absent. */
  function GetString(quote: string -> string, members: seq<(string, Json)>, key: string): Option<string> {
    match Get(members, key)
    case None => None
    case Some(v) => Some(Text(quote, v))
  }

  /**
   * `getLong`: a number, or a string the library converts to a number (`longOfText`, the
   * library's own conversion through `double`, left open); any other value fails.
   */
  function LongOf(longOfText: string -> Option<Long>, v: Json): (r: Option<Long>)
    ensures v.JNum? ==> r == Some(v.n)
    ensures !v.JNum? && !v.JStr? ==> r.None?
  {
    match v
    case JNum(n) => Some(n)
    case JStr(s) => longOfText(s)
    case _ => None
  }

  function GetLong(longOfText: string -> Option<Long>, members: seq<(string, Json)>, key: string): Option<Long> {
    match Get(members, key)
    case None => None
    case Some(v) => LongOf(longOfText, v)
  }

  /** `getInt`: a number narrowed to 32 bits by `intValue()`, or a string the library converts (`intOfText`). */
  function GetInt(intOfText: string -> Option<Int>, members: seq<(string, Json)>, key: string): Option<Int> {
    match Get(members, key)
    case Some(JNum(n)) => Some(IntValue(n))
    case Some(JStr(s)) => intOfText(s)
    case _ => None
  }

  /** `getBoolean`: a boolean, or the string "true" or "false" in any letter case. */
  function BooleanOf(v: Json): Option<bool> {
    match v
    case JBool(b) => Some(b)
    case JStr(s) =>
      if EqualsIgnoreCase(s, "false") then Some(false)
      else if EqualsIgnoreCase(s, "true") then Some(true)
      else None
    case _ => None
  }

  function GetBoolean(members: seq<(string, Json)>, key: string): Option<bool> {
    match Get(members, key)
    case None => None
    case Some(v) => BooleanOf(v)
  }

  /** `getJSONArray(key)`: an array; any other value fails. */
  function GetArray(members: seq<(string, Json)>, key: string): Option<seq<Json>> {
    match Get(members, key)
    case Some(JArr(items)) => Some(items)
    case _ => None
  }

  /** `isNull(key)`: the key is absent or holds JSON null. */
  predicate IsNull(members: seq<(string, Json)>, key: string) {
    Get(members, key) == None || Get(members, key) == Some(JNull)
  }

  /** `new JSONObject(text)`: the members of the object the text holds; anything else fails. */
  function ObjectOf(parse: string -> Option<Json>, text: string): (r: Option<seq<(string, Json)>>)
    ensures r.Some? <==> parse(text).Some? && parse(text).value.JObj?
    ensures r.Some? ==> parse(text) == Some(JObj(r.value))
  {
    match parse(text)
    case Some(JObj(members)) => Some(members)
    case _ => None
  }

  /** `new JSONArray(text)`: the elements of the array the text holds; anything else fails. */
  function ArrayOf(parse: string -> Option<Json>, text: string): (r: Option<seq<Json>>)
    ensures r.Some? <==> parse(text).Some? && parse(text).value.JArr?
    ensures r.Some? ==> parse(text) == Some(JArr(r.value))
  {
    match parse(text)
    case Some(JArr(items)) => Some(items)
    case _ => None
  }

  /** `JSONArray.optString(i)`: the element's string form, or "" past the end. */
  function OptString(quote: string -> string, items: seq<Json>, i: nat): string {
    if i < |items| then Text(quote, items[i]) else ""
  }
}
