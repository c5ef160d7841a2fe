/** The few `java.lang` string routines the client relies on. */
module JavaLang {

  /** The upper-case form of an ASCII letter; every other character is left alone. */
  function AsciiUpper(c: char): (u: char)
    ensures 'a' <= c <= 'z' ==> u as int == c as int - 32
    ensures !('a' <= c <= 'z') ==> u == c
  {
    if 'a' <= c <= 'z' then (c as int - 32) as char else c
  }

  /** `String.equalsIgnoreCase`, with case folding restricted to ASCII letters. */
  predicate EqualsIgnoreCase(a: string, b: string) {
    |a| == |b| && forall i :: 0 <= i < |a| ==> AsciiUpper(a[i]) == AsciiUpper(b[i])
  }

  /** `new Boolean(s)` / `Boolean.parseBoolean(s)`: true exactly for "true" in any letter case. */
  function ParseBoolean(s: string): bool {
    EqualsIgnoreCase(s, "true")
  }

  /** `Boolean.toString(b)`. */
  function BooleanText(b: bool): string {
    if b then "true" else "false"
  }

  /** `new Boolean(s)` holds exactly for the four letters t, r, u, e, each in either case. */
  lemma ParseBooleanLetters(s: string)
    ensures ParseBoolean(s) <==>
      |s| == 4 && s[0] in "tT" && s[1] in "rR" && s[2] in "uU" && s[3] in "eE"
  {
    if |s| == 4 {
      assert "true"[0] == 't' && "true"[1] == 'r' && "true"[2] == 'u' && "true"[3] == 'e';
      if s[0] in "tT" && s[1] in "rR" && s[2] in "uU" && s[3] in "eE" {
        assert forall i :: 0 <= i < 4 ==> AsciiUpper(s[i]) == AsciiUpper("true"[i]);
      }
      if ParseBoolean(s) {
        assert AsciiUpper(s[0]) == 'T' && AsciiUpper(s[1]) == 'R';
        assert AsciiUpper(s[2]) == 'U' && AsciiUpper(s[3]) == 'E';
      }
    }
  }

  /** `new Boolean(Boolean.toString(b)) == b`, and the JSON string literal `"true"` (with its quotes) reads as false. */
  lemma ParseBooleanText(b: bool)
    ensures ParseBoolean(BooleanText(b)) == b
    ensures !ParseBoolean("\"true\"")
  {
    ParseBooleanLetters(BooleanText(b));
    ParseBooleanLetters("\"true\"");
  }
}
