/** The one-line structured event the gateway streams in local mode: the
    event record, its serialisation the way Python's `json.dumps` writes it
    with default settings (`", "` and `": "` separators, every character
    outside printable ASCII escaped), a reader for that layout, and the
    round trip between the two. */
module EventLine {
  import opened Wrappers

  predicate Printable(c: char) {
    ' ' <= c <= '~'
  }

  predicate AllPrintable(s: string) {
    forall i | 0 <= i < |s| :: Printable(s[i])
  }

  // ---------------------------------------------------------------------
  // Hexadecimal digits of a `\uXXXX` escape
  // ---------------------------------------------------------------------

  function HexValue(c: char): (r: Option<int>)
    ensures r.Some? ==> 0 <= r.value < 16
  {
    if '0' <= c <= '9' then Some(c as int - '0' as int)
    else if 'a' <= c <= 'f' then Some(c as int - 'a' as int + 10)
    else if 'A' <= c <= 'F' then Some(c as int - 'A' as int + 10)
    else None
  }

  /** A lower-case hexadecimal digit, as Python's `{:04x}` writes it. */
  function HexDigit(d: int): (c: char)
    requires 0 <= d < 16
    ensures Printable(c)
    ensures HexValue(c) == Some(d)
  {
    if d < 10 then ('0' as int + d) as char else ('a' as int + d - 10) as char
  }

  function ParseHex4(s: string): (r: Option<int>)
    requires |s| == 4
    ensures r.Some? ==> 0 <= r.value < 0x10000
  {
    var a :- HexValue(s[0]);
    var b :- HexValue(s[1]);
    var c :- HexValue(s[2]);
    var d :- HexValue(s[3]);
    Some(((a * 16 + b) * 16 + c) * 16 + d)
  }

  function Hex4(v: int): (s: string)
    requires 0 <= v < 0x10000
    ensures |s| == 4 && AllPrintable(s)
    ensures ParseHex4(s) == Some(v)
  {
    var q1 := v / 16;
    var q2 := q1 / 16;
    assert v == q1 * 16 + v % 16 && q1 == q2 * 16 + q1 % 16 && q2 == (q2 / 16) * 16 + q2 % 16;
    var s := [HexDigit(q2 / 16), HexDigit(q2 % 16), HexDigit(q1 % 16), HexDigit(v % 16)];
    assert ParseHex4(s) == Some(((q2 / 16 * 16 + q2 % 16) * 16 + q1 % 16) * 16 + v % 16);
    s
  }

  function UnicodeEscape(v: int): (s: string)
    requires 0 <= v < 0x10000
    ensures |s| == 6 && AllPrintable(s)
  {
    "\\u" + Hex4(v)
  }

  // ---------------------------------------------------------------------
  // String literals
  // ---------------------------------------------------------------------

  /** The escape `json.dumps` writes for one character: a two-character
      escape where JSON has one, the character itself when it is printable
      ASCII, `\uXXXX` for the rest of the Basic Multilingual Plane, and a
      UTF-16 surrogate pair of escapes above it. */
  function EscapeChar(c: char): (e: string)
    ensures AllPrintable(e)
  {
    if c == '"' then "\\\""
    else if c == '\\' then "\\\\"
    else if c == '\n' then "\\n"
    else if c == '\r' then "\\r"
    else if c == '\t' then "\\t"
    else if c as int == 8 then "\\b"
    else if c as int == 12 then "\\f"
    else if Printable(c) then [c]
    else if c as int < 0x10000 then UnicodeEscape(c as int)
    else SurrogateEscapes(c as int)
  }

  /** The UTF-16 surrogate pair of escapes for a code point above the Basic
      Multilingual Plane. */
  function SurrogateEscapes(v: int): (s: string)
    requires 0x10000 <= v < 0x110000
    ensures |s| == 12 && AllPrintable(s)
  {
    var n := v - 0x10000;
    SurrogateHalves(n);
    UnicodeEscape(0xD800 + n / 0x400) + UnicodeEscape(0xDC00 + n % 0x400)
  }

  /** The body of a JSON string literal for `s`, without the quotes. */
  function Escape(s: string): (e: string)
    ensures AllPrintable(e)
  {
    if s == [] then [] else EscapeChar(s[0]) + Escape(s[1..])
  }

  function ShortEscape(c: char): Option<char> {
    if c == '"' then Some('"')
    else if c == '\\' then Some('\\')
    else if c == '/' then Some('/')
    else if c == 'b' then Some(8 as char)
    else if c == 'f' then Some(12 as char)
    else if c == 'n' then Some('\n')
    else if c == 'r' then Some('\r')
    else if c == 't' then Some('\t')
    else None
  }

  function Cons(c: char, r: Option<(string, string)>): Option<(string, string)> {
    if r.None? then None else Some(([c] + r.value.0, r.value.1))
  }

  /** Reads the body of a JSON string literal up to its closing quote and
      returns the decoded text together with what follows the quote. */
  function DecodeStringBody(s: string): (r: Option<(string, string)>)
    decreases |s|
  {
    if s == [] then None
    else if s[0] == '"' then Some(([], s[1..]))
    else if s[0] == '\\' then
      if |s| < 2 then None
      else if s[1] == 'u' then
        if |s| < 6 then None
        else
          var v :- ParseHex4(s[2..6]);
          if 0xD800 <= v < 0xDC00 then
            if |s| < 12 || s[6] != '\\' || s[7] != 'u' then None
            else
              var w :- ParseHex4(s[8..12]);
              if 0xDC00 <= w < 0xE000 then
                Cons((0x10000 + (v - 0xD800) * 0x400 + (w - 0xDC00)) as char, DecodeStringBody(s[12..]))
              else None
          else if 0xDC00 <= v < 0xE000 then None
          else Cons(v as char, DecodeStringBody(s[6..]))
      else
        var c :- ShortEscape(s[1]);
        Cons(c, DecodeStringBody(s[2..]))
    else if s[0] < ' ' then None
    else Cons(s[0], DecodeStringBody(s[1..]))
  }

  /** Decoding undoes a two-character escape. */
  lemma DecodeShortEscape(c: char, tail: string)
    requires c == '"' || c == '\\' || c == '\n' || c == '\r' || c == '\t' || c as int == 8 || c as int == 12
    ensures DecodeStringBody(EscapeChar(c) + tail) == Cons(c, DecodeStringBody(tail))
  {
    var s := EscapeChar(c) + tail;
    assert |EscapeChar(c)| == 2 && EscapeChar(c)[0] == '\\';
    assert s[2..] == tail;
  }

  /** Decoding reads a printable character as itself. */
  lemma DecodePlain(c: char, tail: string)
    requires Printable(c) && c != '"' && c != '\\'
    ensures DecodeStringBody(EscapeChar(c) + tail) == Cons(c, DecodeStringBody(tail))
  {
    var s := EscapeChar(c) + tail;
    assert EscapeChar(c) == [c];
    assert s[1..] == tail;
  }

  /** Decoding undoes a single `\uXXXX` escape of a character below U+10000. */
  lemma DecodeBmpEscape(c: char, tail: string)
    requires !Printable(c) && c != '\n' && c != '\r' && c != '\t' && c as int != 8 && c as int != 12
    requires c as int < 0x10000
    ensures DecodeStringBody(EscapeChar(c) + tail) == Cons(c, DecodeStringBody(tail))
  {
    var s := EscapeChar(c) + tail;
    assert EscapeChar(c) == "\\u" + Hex4(c as int);
    assert s[..2] == "\\u";
    assert s[2..6] == Hex4(c as int);
    assert s[6..] == tail;
  }

  /** The two halves of a surrogate pair recombine to the code point. */
  lemma SurrogateHalves(n: int)
    requires 0 <= n < 0x100000
    ensures 0xD800 <= 0xD800 + n / 0x400 < 0xDC00
    ensures 0xDC00 <= 0xDC00 + n % 0x400 < 0xE000
    ensures (n / 0x400) * 0x400 + n % 0x400 == n
  {
  }

  /** Decoding reads a high and a low surrogate escape as one character. */
  lemma DecodePairOfEscapes(hi: int, lo: int, tail: string)
    requires 0xD800 <= hi < 0xDC00 && 0xDC00 <= lo < 0xE000
    ensures DecodeStringBody(UnicodeEscape(hi) + UnicodeEscape(lo) + tail)
         == Cons((0x10000 + (hi - 0xD800) * 0x400 + (lo - 0xDC00)) as char, DecodeStringBody(tail))
  {
    var s := UnicodeEscape(hi) + UnicodeEscape(lo) + tail;
    assert s[0] == '\\' && s[1] == 'u' && s[6] == '\\' && s[7] == 'u';
    assert s[2..6] == Hex4(hi);
    assert s[8..12] == Hex4(lo);
    assert s[12..] == tail;
  }

  lemma EscapeAstral(c: char, hi: int, lo: int)
    requires c as int >= 0x10000
    requires hi == 0xD800 + (c as int - 0x10000) / 0x400
    requires lo == 0xDC00 + (c as int - 0x10000) % 0x400
    ensures 0xD800 <= hi < 0xDC00 && 0xDC00 <= lo < 0xE000
    ensures EscapeChar(c) == UnicodeEscape(hi) + UnicodeEscape(lo)
  {
    SurrogateHalves(c as int - 0x10000);
    assert EscapeChar(c) == SurrogateEscapes(c as int);
  }

  /** Decoding recombines the surrogate pair written for a character at or
      above U+10000. */
  lemma DecodeSurrogatePair(c: char, tail: string)
    requires c as int >= 0x10000
    ensures DecodeStringBody(EscapeChar(c) + tail) == Cons(c, DecodeStringBody(tail))
  {
    var n := c as int - 0x10000;
    var hi, lo := 0xD800 + n / 0x400, 0xDC00 + n % 0x400;
    EscapeAstral(c, hi, lo);
    var code := 0x10000 + (hi - 0xD800) * 0x400 + (lo - 0xDC00);
    assert code == c as int by {
      SurrogateHalves(n);
    }
    calc {
      DecodeStringBody(EscapeChar(c) + tail);
      DecodeStringBody(UnicodeEscape(hi) + UnicodeEscape(lo) + tail);
      { DecodePairOfEscapes(hi, lo, tail); }
      Cons(code as char, DecodeStringBody(tail));
    }
  }

  /** Decoding undoes the escape of any single character. */
  lemma DecodeEscapeChar(c: char, tail: string)
    ensures DecodeStringBody(EscapeChar(c) + tail) == Cons(c, DecodeStringBody(tail))
  {
    if c == '"' || c == '\\' || c == '\n' || c == '\r' || c == '\t' || c as int == 8 || c as int == 12 {
      DecodeShortEscape(c, tail);
    } else if Printable(c) {
      DecodePlain(c, tail);
    } else if c as int < 0x10000 {
      DecodeBmpEscape(c, tail);
    } else {
      DecodeSurrogatePair(c, tail);
    }
  }

  /** Reading a literal back yields exactly the text that was escaped, and
      the reader stops at the closing quote. */
  lemma {:induction false} DecodeEscape(s: string, rest: string)
    ensures DecodeStringBody(Escape(s) + "\"" + rest) == Some((s, rest))
  {
    if s == [] {
      assert Escape(s) + "\"" + rest == "\"" + rest;
    } else {
      calc {
        DecodeStringBody(Escape(s) + "\"" + rest);
        { assert Escape(s) + "\"" + rest == EscapeChar(s[0]) + (Escape(s[1..]) + "\"" + rest); }
        DecodeStringBody(EscapeChar(s[0]) + (Escape(s[1..]) + "\"" + rest));
        { DecodeEscapeChar(s[0], Escape(s[1..]) + "\"" + rest); }
        Cons(s[0], DecodeStringBody(Escape(s[1..]) + "\"" + rest));
        { DecodeEscape(s[1..], rest); }
        Some(([s[0]] + s[1..], rest));
        { assert [s[0]] + s[1..] == s; }
        Some((s, rest));
      }
    }
  }

  // ---------------------------------------------------------------------
  // Natural numbers
  // ---------------------------------------------------------------------

  predicate IsDigit(c: char) {
    '0' <= c <= '9'
  }

  predicate AllDigits(s: string) {
    forall i | 0 <= i < |s| :: IsDigit(s[i])
  }

  function DigitsValue(ds: string): nat
    requires AllDigits(ds)
  {
    if ds == [] then 0 else DigitsValue(ds[..|ds| - 1]) * 10 + (ds[|ds| - 1] as int - '0' as int)
  }

  /** The decimal text `json.dumps` writes for a non-negative integer. */
  function Decimal(n: nat): (s: string)
    ensures |s| > 0 && AllDigits(s) && AllPrintable(s)
    ensures DigitsValue(s) == n
  {
    if n < 10 then [('0' as int + n) as char]
    else
      var s := Decimal(n / 10) + [('0' as int + n % 10) as char];
      assert s[..|s| - 1] == Decimal(n / 10);
      s
  }

  /** The length of the run of digits at the start of `s`. */
  function DigitRun(s: string): (k: nat)
    ensures k <= |s| && AllDigits(s[..k])
    ensures k < |s| ==> !IsDigit(s[k])
  {
    if s != [] && IsDigit(s[0]) then
      var k := 1 + DigitRun(s[1..]);
      assert s[..k] == [s[0]] + s[1..][..k - 1];
      k
    else 0
  }

  function ParseNat(s: string): Option<(nat, string)> {
    var k := DigitRun(s);
    if k == 0 then None else Some((DigitsValue(s[..k]), s[k..]))
  }

  lemma {:induction false} DigitRunOfDigits(ds: string, rest: string)
    requires AllDigits(ds)
    requires rest == [] || !IsDigit(rest[0])
    ensures DigitRun(ds + rest) == |ds|
  {
    if ds != [] {
      assert (ds + rest)[1..] == ds[1..] + rest;
      DigitRunOfDigits(ds[1..], rest);
    }
  }

  lemma ParseDecimal(n: nat, rest: string)
    requires rest == [] || !IsDigit(rest[0])
    ensures ParseNat(Decimal(n) + rest) == Some((n, rest))
  {
    var ds := Decimal(n);
    DigitRunOfDigits(ds, rest);
    assert (ds + rest)[..|ds|] == ds;
    assert (ds + rest)[|ds|..] == rest;
  }

  // ---------------------------------------------------------------------
  // The event line
  // ---------------------------------------------------------------------

  datatype Event = Event(runId: string, seqNo: nat, kind: string, time: string, message: string)

  /** A JSON string literal for `s`, quotes included. */
  function Quoted(s: string): (q: string)
    ensures AllPrintable(q)
  {
    "\"" + Escape(s) + "\""
  }

  /** Reads a JSON string literal at the front of `s`. */
  function DecodeString(s: string): Option<(string, string)> {
    if s != [] && s[0] == '"' then DecodeStringBody(s[1..]) else None
  }

  lemma DecodeQuoted(s: string, rest: string)
    ensures DecodeString(Quoted(s) + rest) == Some((s, rest))
  {
    var t := Quoted(s) + rest;
    assert t[1..] == Escape(s) + "\"" + rest;
    DecodeEscape(s, rest);
  }

  /** Text that is one line: it ends with the only newline it contains. */
  predicate SingleLine(s: string) {
    && |s| > 0
    && s[|s| - 1] == '\n'
    && forall i | 0 <= i < |s| - 1 :: s[i] != '\n'
  }

  lemma PrependPrintable(a: string, b: string)
    requires AllPrintable(a) && SingleLine(b)
    ensures SingleLine(a + b)
  {
    var s := a + b;
    forall i | 0 <= i < |s| - 1
      ensures s[i] != '\n'
    {
      if i < |a| {
        assert s[i] == a[i];
      } else {
        assert s[i] == b[i - |a|];
      }
    }
  }

  /** One member of the payload written in front of the rest of the line:
      `lead` is the literal text up to and including the key's `": "`, and
      `value` is the member's JSON text. */
  function Field(lead: string, value: string, rest: string): (r: string)
    requires AllPrintable(lead) && AllPrintable(value) && SingleLine(rest)
    ensures r == lead + (value + rest)
    ensures SingleLine(r)
  {
    PrependPrintable(value, rest);
    PrependPrintable(lead, value + rest);
    lead + (value + rest)
  }

  /** The fixed text of the payload is printable, and its closing text is
      a line on its own. */
  lemma PayloadTextIsPrintable()
    ensures AllPrintable("{\"run_id\": ")
    ensures AllPrintable(", \"seq\": ")
    ensures AllPrintable(", \"type\": ")
    ensures AllPrintable(", \"time\": ")
    ensures AllPrintable(", \"data\": {\"message\": ")
    ensures SingleLine("}}\n")
  {
  }

  /** The streamed payload: `json.dumps` of the five-field payload (in the
      order the payload dictionary lists them, with `", "` and `": "`
      separators) followed by one line terminator. The whole payload is a
      single line. */
  function EncodeEventLine(e: Event): (line: string)
    ensures SingleLine(line)
  {
    PayloadTextIsPrintable();
    var data := Field(", \"data\": {\"message\": ", Quoted(e.message), "}}\n");
    var time := Field(", \"time\": ", Quoted(e.time), data);
    var kind := Field(", \"type\": ", Quoted(e.kind), time);
    var num := Field(", \"seq\": ", Decimal(e.seqNo), kind);
    Field("{\"run_id\": ", Quoted(e.runId), num)
  }

  /** Removes the literal `lit` from the front of `s`. */
  function Expect(lit: string, s: string): (r: Option<string>)
    ensures r.Some? ==> s == lit + r.value
  {
    if lit <= s then Some(s[|lit|..]) else None
  }

  lemma ExpectLiteral(lit: string, rest: string)
    ensures Expect(lit, lit + rest) == Some(rest)
  {
    assert (lit + rest)[..|lit|] == lit;
    assert (lit + rest)[|lit|..] == rest;
  }

  /** Reads back a line in the layout `EncodeEventLine` writes. */
  function ParseEventLine(line: string): Option<Event> {
    var a :- Expect("{\"run_id\": ", line);
    var id :- DecodeString(a);
    var b :- Expect(", \"seq\": ", id.1);
    var num :- ParseNat(b);
    var c :- Expect(", \"type\": ", num.1);
    var kind :- DecodeString(c);
    var d :- Expect(", \"time\": ", kind.1);
    var time :- DecodeString(d);
    var f :- Expect(", \"data\": {\"message\": ", time.1);
    var msg :- DecodeString(f);
    var g :- Expect("}}\n", msg.1);
    if g == [] then Some(Event(id.0, num.0, kind.0, time.0, msg.0)) else None
  }

  /** Every event line reads back as the event it was written from. */
  lemma ParseEncodedEventLine(e: Event)
    ensures ParseEventLine(EncodeEventLine(e)) == Some(e)
  {
    var data := ", \"data\": {\"message\": " + (Quoted(e.message) + "}}\n");
    var time := ", \"time\": " + (Quoted(e.time) + data);
    var kind := ", \"type\": " + (Quoted(e.kind) + time);
    var num := ", \"seq\": " + (Decimal(e.seqNo) + kind);
    ExpectLiteral("{\"run_id\": ", Quoted(e.runId) + num);
    DecodeQuoted(e.runId, num);
    ExpectLiteral(", \"seq\": ", Decimal(e.seqNo) + kind);
    assert kind[0] == ',';
    ParseDecimal(e.seqNo, kind);
    ExpectLiteral(", \"type\": ", Quoted(e.kind) + time);
    DecodeQuoted(e.kind, time);
    ExpectLiteral(", \"time\": ", Quoted(e.time) + data);
    DecodeQuoted(e.time, data);
    ExpectLiteral(", \"data\": {\"message\": ", Quoted(e.message) + "}}\n");
    DecodeQuoted(e.message, "}}\n");
    ExpectLiteral("}}\n", []);
    assert "}}\n" + [] == "}}\n";
  }
}
