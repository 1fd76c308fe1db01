/** `JSON.stringify` of strings and of arrays of strings, and the decoding of
    a JSON string body that undoes it. */
module JsonText {
  import opened JsText

  /** A lower-case hexadecimal digit, as `JSON.stringify` writes in `\u00XX`. */
  function HexLower(d: nat): (c: char)
    requires d < 16
    ensures IsHexDigit(c) && DigitValue(c) == d
  {
    if d < 10 then ('0' as int + d) as char else ('a' as int + d - 10) as char
  }

  /** The escape `JSON.stringify` writes for one character of a string. */
  function EscapeChar(c: char): (e: string)
    ensures |e| >= 1
    ensures forall i :: 0 <= i < |e| ==> e[i] >= ' '
    ensures c >= ' ' && c != '"' && c != '\\' ==> e == [c]
  {
    if c == '"' then "\\\""
    else if c == '\\' then "\\\\"
    else if c == '\U{0008}' then "\\b"
    else if c == '\U{000C}' then "\\f"
    else if c == '\n' then "\\n"
    else if c == '\r' then "\\r"
    else if c == '\t' then "\\t"
    else if c < ' ' then "\\u00" + [HexLower(c as int / 16), HexLower(c as int % 16)]
    else [c]
  }

  /** The body of `JSON.stringify(s)` between its quotes. */
  function Escape(s: string): (r: string)
    ensures forall i :: 0 <= i < |r| ==> r[i] >= ' '
    ensures |r| >= |s|
  {
    if s == [] then [] else EscapeChar(s[0]) + Escape(s[1..])
  }

  /** No character of `s` needs an escape. */
  predicate Plain(s: string) {
    forall i :: 0 <= i < |s| ==> s[i] >= ' ' && s[i] != '"' && s[i] != '\\'
  }

  lemma {:induction false} EscapePlain(s: string)
    requires Plain(s)
    ensures Escape(s) == s
  {
    if s != [] {
      assert Plain(s[1..]) by {
        forall i | 0 <= i < |s[1..]| ensures s[1..][i] >= ' ' && s[1..][i] != '"' && s[1..][i] != '\\' {
          assert s[1..][i] == s[i + 1];
        }
      }
      EscapePlain(s[1..]);
      assert [s[0]] + s[1..] == s;
    }
  }

  lemma {:induction false} EscapeAppend(a: string, b: string)
    ensures Escape(a + b) == Escape(a) + Escape(b)
  {
    if a != [] {
      assert (a + b)[0] == a[0];
      assert (a + b)[1..] == a[1..] + b;
      EscapeAppend(a[1..], b);
      ConcatAssoc(EscapeChar(a[0]), Escape(a[1..]), Escape(b));
    } else {
      assert a + b == b;
    }
  }

  /** `JSON.stringify(s)` for a string. */
  function Quote(s: string): string { "\"" + Escape(s) + "\"" }

  /** `JSON.stringify(items)` for an array of strings: no spaces between the
      elements. */
  function QuoteArray(items: seq<string>): (r: string)
    ensures forall i :: 0 <= i < |r| ==> r[i] >= ' '
  {
    "[" + QuoteItems(items) + "]"
  }

  function QuoteItems(items: seq<string>): (r: string)
    ensures forall i :: 0 <= i < |r| ==> r[i] >= ' '
  {
    if items == [] then []
    else if |items| == 1 then Quote(items[0])
    else Quote(items[0]) + "," + QuoteItems(items[1..])
  }

  /** Whatever one element's rendering contains, the array's does. */
  lemma {:induction false} QuoteItemsContains(items: seq<string>, k: nat, p: string)
    requires k < |items| && Contains(Quote(items[k]), p)
    ensures Contains(QuoteItems(items), p)
  {
    if |items| >= 2 {
      if k == 0 {
        ContainsExtends(Quote(items[0]), p, "," + QuoteItems(items[1..]));
        ConcatAssoc(Quote(items[0]), ",", QuoteItems(items[1..]));
      } else {
        assert items[1..][k - 1] == items[k];
        QuoteItemsContains(items[1..], k - 1, p);
        ContainsWithin(Quote(items[0]) + ",", QuoteItems(items[1..]), [], p);
        assert Quote(items[0]) + "," + QuoteItems(items[1..]) + [] == QuoteItems(items);
      }
    }
  }

  lemma QuoteArrayContains(items: seq<string>, k: nat, p: string)
    requires k < |items| && Contains(Escape(items[k]), p)
    ensures Contains(QuoteArray(items), p)
  {
    ContainsWithin("\"", Escape(items[k]), "\"", p);
    QuoteItemsContains(items, k, p);
    ContainsWithin("[", QuoteItems(items), "]", p);
  }

  // ---------------------------------------------------------------------------
  // Decoding a string body

  /** The value of four hexadecimal digits. */
  function Hex4(a: char, b: char, c: char, d: char): nat {
    DigitValue(a) * 4096 + DigitValue(b) * 256 + DigitValue(c) * 16 + DigitValue(d)
  }

  /** The character a JSON escape `\x…` at the head of `s` stands for, with
      the length of the escape; `None` for a malformed escape or a lone
      surrogate. */
  function UnescapeHead(s: string): (r: Option<(char, nat)>)
    requires |s| >= 1 && s[0] == '\\'
    ensures r.Some? ==> 2 <= r.value.1 <= |s|
  {
    if |s| < 2 then None
    else if s[1] == '"' then Some(('"', 2))
    else if s[1] == '\\' then Some(('\\', 2))
    else if s[1] == '/' then Some(('/', 2))
    else if s[1] == 'b' then Some(('\U{0008}', 2))
    else if s[1] == 'f' then Some(('\U{000C}', 2))
    else if s[1] == 'n' then Some(('\n', 2))
    else if s[1] == 'r' then Some(('\r', 2))
    else if s[1] == 't' then Some(('\t', 2))
    else if s[1] == 'u' && |s| >= 6
            && IsHexDigit(s[2]) && IsHexDigit(s[3]) && IsHexDigit(s[4]) && IsHexDigit(s[5]) then
      var v := Hex4(s[2], s[3], s[4], s[5]);
      if 0xD800 <= v < 0xE000 then None else Some((v as char, 6))
    else None
  }

  /** The text a JSON string body denotes (`JSON.parse` of `"` + s + `"`);
      `None` when it holds a raw quote, a raw control character or a bad
      escape. */
  function Unescape(s: string): (r: Option<string>)
    decreases |s|
  {
    if s == [] then Some([])
    else if s[0] == '\\' then
      match UnescapeHead(s)
      case None => None
      case Some((c, n)) => Prepend(c, Unescape(s[n..]))
    else if s[0] == '"' || s[0] < ' ' then None
    else Prepend(s[0], Unescape(s[1..]))
  }

  function Prepend(c: char, r: Option<string>): Option<string> {
    if r.Some? then Some([c] + r.value) else None
  }

  lemma UnescapeChar(c: char, rest: string)
    ensures Unescape(EscapeChar(c) + rest) == Prepend(c, Unescape(rest))
  {
    var e := EscapeChar(c);
    var s := e + rest;
    assert s[..|e|] == e;
    assert s[|e|..] == rest;
    if c < ' ' && c != '\U{0008}' && c != '\U{000C}' && c != '\n' && c != '\r' && c != '\t' {
      var hi, lo := c as int / 16, c as int % 16;
      assert e == ['\\', 'u', '0', '0', HexLower(hi), HexLower(lo)];
      assert Hex4(s[2], s[3], s[4], s[5]) == hi * 16 + lo;
    }
  }

  /** Decoding undoes the escaping: the string body of `JSON.stringify(s)`
      denotes `s`. */
  lemma {:induction false} UnescapeEscape(s: string)
    ensures Unescape(Escape(s)) == Some(s)
  {
    if s != [] {
      UnescapeEscape(s[1..]);
      UnescapeChar(s[0], Escape(s[1..]));
      assert [s[0]] + s[1..] == s;
    }
  }

  /** Hence escaping loses nothing: different strings render differently. */
  lemma EscapeInjective(s: string, t: string)
    requires Escape(s) == Escape(t)
    ensures s == t
  {
    UnescapeEscape(s);
    UnescapeEscape(t);
  }
}
