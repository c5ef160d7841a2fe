/**
 * The array-scanning idiom every decoder uses:
 *   `for (int i = 0; arr.optString(i).length() > 0; i++) { ... arr.getX(i) ... }`
 * The loop stops at the first element whose string form is empty (the empty JSON string)
 * or at the end of the array, so only the prefix before the first empty string is read.
 */
module Scan {
  import opened Wrappers
  import opened Decimal
  import opened Json

  /** The element that stops the scan: the only value whose string form is empty. */
  predicate Blank(v: Json) {
    v == JStr("")
  }

  /** The number of elements the scan visits: the index of the first blank element, or the length. */
  function PrefixLength(items: seq<Json>): (n: nat)
    ensures n <= |items|
    ensures forall i :: 0 <= i < n ==> !Blank(items[i])
    ensures n < |items| ==> Blank(items[n])
  {
    if |items| == 0 || Blank(items[0]) then 0 else 1 + PrefixLength(items[1..])
  }

  /** The elements the scan visits. */
  function Prefix(items: seq<Json>): seq<Json> {
    items[..PrefixLength(items)]
  }

  /** `getLong` on each element, failing as a whole if any element fails. */
  function LongsOf(longOfText: string -> Option<Long>, vs: seq<Json>): (r: Option<seq<Long>>)
    ensures r.Some? <==> forall i :: 0 <= i < |vs| ==> LongOf(longOfText, vs[i]).Some?
    ensures r.Some? ==> |r.value| == |vs|
    ensures r.Some? ==> forall i :: 0 <= i < |vs| ==> Some(r.value[i]) == LongOf(longOfText, vs[i])
  {
    if |vs| == 0 then Some([])
    else match LongsOf(longOfText, vs[..|vs| - 1])
      case None => None
      case Some(ns) =>
        match LongOf(longOfText, vs[|vs| - 1])
        case None => None
        case Some(n) => Some(ns + [n])
  }

  /** `getString` on each element. */
  function Texts(quote: string -> string, vs: seq<Json>): (r: seq<string>)
    ensures |r| == |vs| && forall i :: 0 <= i < |vs| ==> r[i] == Text(quote, vs[i])
  {
    if |vs| == 0 then [] else Texts(quote, vs[..|vs| - 1]) + [Text(quote, vs[|vs| - 1])]
  }

  /** Applies a decoder to each text. */
  function MapAll<T>(ts: seq<string>, decode: string -> T): (r: seq<T>)
    ensures |r| == |ts| && forall i :: 0 <= i < |ts| ==> r[i] == decode(ts[i])
  {
    if |ts| == 0 then [] else MapAll(ts[..|ts| - 1], decode) + [decode(ts[|ts| - 1])]
  }

  /** An element after the first blank one never affects the scan. */
  lemma {:induction false} PrefixStopsAtBlank(items: seq<Json>, k: nat)
    requires k < |items| && Blank(items[k])
    ensures Prefix(items) == Prefix(items[..k])
  {
    var n := PrefixLength(items);
    assert n <= k;
    assert PrefixLength(items[..k]) == n by {
      PrefixLengthOfPrefix(items, k);
    }
  }

  lemma {:induction false} PrefixLengthOfPrefix(items: seq<Json>, k: nat)
    requires k <= |items| && PrefixLength(items) <= k
    ensures PrefixLength(items[..k]) == PrefixLength(items)
  {
    if |items| > 0 && !Blank(items[0]) {
      assert items[..k][1..] == items[1..][..k - 1];
      PrefixLengthOfPrefix(items[1..], k - 1);
    }
  }

  /** An array with no blank element is read in full. */
  lemma {:induction false} NoBlankReadsAll(items: seq<Json>)
    requires forall i :: 0 <= i < |items| ==> !Blank(items[i])
    ensures PrefixLength(items) == |items| && Prefix(items) == items
  {
    if |items| > 0 {
      NoBlankReadsAll(items[1..]);
    }
  }

  /**
   * The list a `toList` returns: null unless the text is a JSON array; otherwise each
   * element before the first blank one, read with `getString(i)` and handed to the
   * element decoder, in array order.
   */
  function DecodeList<T>(parse: string -> Option<Json>, quote: string -> string, json: string, decode: string -> T): (r: Option<seq<T>>)
    ensures r.None? <==> ArrayOf(parse, json).None?
    ensures r.Some? ==> var items := ArrayOf(parse, json).value;
      |r.value| == PrefixLength(items) &&
      forall i :: 0 <= i < |r.value| ==> r.value[i] == decode(Text(quote, items[i]))
  {
    match ArrayOf(parse, json)
    case None => None
    case Some(items) => Some(MapAll(Texts(quote, Prefix(items)), decode))
  }

  /** `toList` of an element decoder, as a function of the text it decodes. */
  function ListDecoder<T>(parse: string -> Option<Json>, quote: string -> string, decode: string -> T): string -> Option<seq<T>> {
    s => DecodeList(parse, quote, s, decode)
  }

  /** A list of ids written as JSON numbers is read back whole and in order. */
  lemma ReadsBackNums(longOfText: string -> Option<Long>, ids: seq<Long>)
    ensures LongsOf(longOfText, Prefix(Nums(ids))) == Some(ids)
  {
    var items := Nums(ids);
    assert forall i :: 0 <= i < |items| ==> !Blank(items[i]);
    NoBlankReadsAll(items);
    LongsOfNums(longOfText, ids);
  }

  lemma {:induction false} LongsOfNums(longOfText: string -> Option<Long>, ids: seq<Long>)
    ensures LongsOf(longOfText, Nums(ids)) == Some(ids)
  {
    if |ids| > 0 {
      var n := |ids| - 1;
      assert Nums(ids)[..n] == Nums(ids[..n]);
      LongsOfNums(longOfText, ids[..n]);
      assert ids[..n] + [ids[n]] == ids;
    }
  }

  /** A list of non-empty strings written as JSON strings is read back whole and in order. */
  lemma ReadsBackStrs(quote: string -> string, ss: seq<string>)
    requires forall i :: 0 <= i < |ss| ==> ss[i] != ""
    ensures Texts(quote, Prefix(Strs(ss))) == ss
  {
    var items := Strs(ss);
    assert forall i :: 0 <= i < |items| ==> !Blank(items[i]);
    NoBlankReadsAll(items);
    var r := Texts(quote, items);
    assert forall i :: 0 <= i < |ss| ==> r[i] == ss[i];
  }

  /** The loop of `ShareVisibility.toObject` and `Entity.toObject` that reads an id list with `getLong(i)`. */
  method ReadLongs(quote: string -> string, longOfText: string -> Option<Long>, items: seq<Json>) returns (r: Option<seq<Long>>)
    ensures r == LongsOf(longOfText, Prefix(items))
  {
    var elements: seq<Long> := [];
    var i := 0;
    while |OptString(quote, items, i)| > 0
      invariant i <= PrefixLength(items)
      invariant LongsOf(longOfText, items[..i]) == Some(elements)
      decreases |items| - i
    {
      ScanNext(quote, items, i);
      assert items[..i + 1][..i] == items[..i];
      match LongOf(longOfText, items[i]) {
        case None =>
          assert LongsOf(longOfText, Prefix(items)).None? by {
            assert LongOf(longOfText, Prefix(items)[i]).None?;
          }
          return None;
        case Some(n) =>
          elements := elements + [n];
      }
      i := i + 1;
    }
    r := Some(elements);
  }

  /** The loop of `Topic.toObject` and `SharedContent.toObject` that reads a string list with `getString(i)`. */
  method ReadStrings(quote: string -> string, items: seq<Json>) returns (r: seq<string>)
    ensures r == Texts(quote, Prefix(items))
  {
    var elements: seq<string> := [];
    var i := 0;
    while |OptString(quote, items, i)| > 0
      invariant i <= PrefixLength(items)
      invariant elements == Texts(quote, items[..i])
      decreases |items| - i
    {
      ScanNext(quote, items, i);
      assert items[..i + 1][..i] == items[..i];
      elements := elements + [Text(quote, items[i])];
      i := i + 1;
    }
    r := elements;
  }

  /** While the scan goes on, it is inside the prefix. */
  lemma ScanNext(quote: string -> string, items: seq<Json>, i: nat)
    requires i <= PrefixLength(items) && |OptString(quote, items, i)| > 0
    ensures i < PrefixLength(items) <= |items|
  {
  }

  /** The scan stops exactly at the end of the prefix. */
  lemma ScanEnd(quote: string -> string, items: seq<Json>, i: nat)
    requires i <= PrefixLength(items) && |OptString(quote, items, i)| == 0
    ensures Prefix(items) == items[..i]
  {
  }

  /** Decoding one more element appends its decoded text. */
  lemma DecodeStep<T>(quote: string -> string, items: seq<Json>, i: nat, decode: string -> T)
    requires i < |items|
    ensures MapAll(Texts(quote, items[..i + 1]), decode) ==
      MapAll(Texts(quote, items[..i]), decode) + [decode(Text(quote, items[i]))]
  {
    assert items[..i + 1][..i] == items[..i];
  }

  /**
   * The loop every `toList` runs. (`getString` never yields null, so the source's
   * `subElement != null` test always passes.)
   */
  method ReadList<T>(parse: string -> Option<Json>, quote: string -> string, json: string, decode: string -> T) returns (r: Option<seq<T>>)
    ensures r == DecodeList(parse, quote, json, decode)
  {
    var elementsOf :- ArrayOf(parse, json);
    var listElements := ReadElements(quote, elementsOf, decode);
    r := Some(listElements);
  }

  /** The loop of `toList`: each element before the first blank one, read with `getString(i)` and decoded. */
  method ReadElements<T>(quote: string -> string, items: seq<Json>, decode: string -> T) returns (r: seq<T>)
    ensures r == MapAll(Texts(quote, Prefix(items)), decode)
  {
    var listElements: seq<T> := [];
    var i := 0;
    while |OptString(quote, items, i)| > 0
      invariant i <= PrefixLength(items)
      invariant listElements == MapAll(Texts(quote, items[..i]), decode)
      decreases |items| - i
    {
      ScanNext(quote, items, i);
      var subElement := Text(quote, items[i]);
      DecodeStep(quote, items, i, decode);
      listElements := listElements + [decode(subElement)];
      i := i + 1;
    }
    ScanEnd(quote, items, i);
    r := listElements;
  }

}
