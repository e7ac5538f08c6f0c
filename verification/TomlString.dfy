/** Writing a TOML basic string, and reading one back.

    A text is a sequence of Unicode scalar values. The reader is the "String" section of TOML v1.0.0,
    written independently of the writer.
  */
module TomlString {
  import opened Wrappers

  // ---- writing ---------------------------------------------------------------------

  function HexDigit(n: nat): char
    requires n < 16
  {
    "0123456789ABCDEF"[n]
  }

  function FourDigits(n: nat): (r: string)
    requires n < 0x10000
    ensures |r| == 4
  {
    [HexDigit(n / 0x1000), HexDigit(n / 0x100 % 16), HexDigit(n / 16 % 16), HexDigit(n % 16)]
  }

  function Escape(c: char): string {
    if c == '"' then "\\\""
    else if c == '\\' then "\\\\"
    else if c == '\n' then "\\n"
    else if c == '\t' then "\\t"
    else if c == '\r' then "\\r"
    else if c as int == 8 then "\\b"
    else if c as int == 12 then "\\f"
    else if c as int < 0x20 || c as int == 0x7f then "\\u" + FourDigits(c as int)
    else [c]
  }

  function Escaped(s: string): string {
    if s == "" then "" else Escape(s[0]) + Escaped(s[1..])
  }

  /** `s` as a basic string, quotes included. */
  function Quoted(s: string): string {
    "\"" + Escaped(s) + "\""
  }

  lemma {:induction false} EscapedMore(s: string, c: char)
    ensures Escaped(s + [c]) == Escaped(s) + Escape(c)
  {
    if s == "" {
      assert s + [c] == [c];
      assert [c][1..] == "";
      assert Escape(c) + "" == Escape(c);
    } else {
      assert (s + [c])[1..] == s[1..] + [c];
      EscapedMore(s[1..], c);
    }
  }

  method WriteQuoted(s: string) returns (out: string)
    ensures out == Quoted(s)
  {
    hide Escape;
    out := "\"";
    for i := 0 to |s|
      invariant out == "\"" + Escaped(s[..i])
    {
      assert s[..i + 1] == s[..i] + [s[i]];
      EscapedMore(s[..i], s[i]);
      out := out + Escape(s[i]);
    }
    assert s[..|s|] == s;
    out := out + "\"";
  }

  // ---- reading ---------------------------------------------------------------------

  function HexValue(c: char): Option<nat> {
    if '0' <= c <= '9' then Some(c as int - '0' as int)
    else if 'A' <= c <= 'F' then Some(c as int - 'A' as int + 10)
    else if 'a' <= c <= 'f' then Some(c as int - 'a' as int + 10)
    else None
  }

  /** The number a run of hexadecimal digits writes. */
  function Number(digits: string): Option<nat> {
    if digits == "" then Some(0)
    else
      var high, low := Number(digits[..|digits| - 1]), HexValue(digits[|digits| - 1]);
      if high.Some? && low.Some? then Some(high.value * 16 + low.value) else None
  }

  /** Surrogates are not scalar values. */
  predicate IsScalar(n: nat) {
    n < 0xD800 || 0xE000 <= n < 0x110000
  }

  /** The characters that have to be escaped, besides the quote and the backslash. */
  predicate IsControl(c: char) {
    (c as int < 0x20 && c != '\t') || c as int == 0x7f
  }

  function Prepend(c: char, rest: Option<string>): Option<string> {
    if rest.Some? then Some([c] + rest.value) else None
  }

  function Simple(c: char): Option<char> {
    if c == 'b' then Some(8 as char)
    else if c == 't' then Some('\t')
    else if c == 'n' then Some('\n')
    else if c == 'f' then Some(12 as char)
    else if c == 'r' then Some('\r')
    else if c == '"' then Some('"')
    else if c == '\\' then Some('\\')
    else None
  }

  /** How many digits follow, when the escape names a code point. */
  function Digits(c: char): nat {
    if c == 'u' then 4 else if c == 'U' then 8 else 0
  }

  /** What follows the opening quote, through the closing one. */
  function Body(t: string): Option<string> {
    if t == "" then None
    else if t[0] == '"' then (if |t| == 1 then Some("") else None)
    else if t[0] == '\\' then
      if |t| == 1 then None
      else if Simple(t[1]).Some? then Prepend(Simple(t[1]).value, Body(t[2..]))
      else
        var n := Digits(t[1]);
        if n == 0 || |t| < 2 + n then None
        else
          var code := Number(t[2..2 + n]);
          if code.Some? && IsScalar(code.value) then Prepend(code.value as char, Body(t[2 + n..])) else None
    else if IsControl(t[0]) then None
    else Prepend(t[0], Body(t[1..]))
  }

  /** The text a basic string stands for, if it is one. */
  function Read(t: string): Option<string> {
    if t != "" && t[0] == '"' then Body(t[1..]) else None
  }

  // ---- the round trip ------------------------------------------------------------------

  lemma {:induction false} HexRoundTrip(n: nat)
    requires n < 16
    ensures HexValue(HexDigit(n)) == Some(n)
  {
  }

  lemma {:induction false} NumberOfFour(n: nat)
    requires n < 0x10000
    ensures Number(FourDigits(n)) == Some(n)
  {
    hide HexDigit, HexValue;
    var d := FourDigits(n);
    HexRoundTrip(n / 0x1000);
    HexRoundTrip(n / 0x100 % 16);
    HexRoundTrip(n / 16 % 16);
    HexRoundTrip(n % 16);
    assert d[..3][..2][..1][..0] == "";
    assert Number(d[..3][..2][..1]) == Some(n / 0x1000);
    assert Number(d[..3][..2]) == Some(n / 0x100);
    assert Number(d[..3]) == Some(n / 16);
  }

  /** One escaped character is read back as that character. */
  lemma {:induction false} ReadsOne(c: char, rest: string)
    ensures Body(Escape(c) + rest) == Prepend(c, Body(rest))
  {
    var t := Escape(c) + rest;
    if c == '"' || c == '\\' || c == '\n' || c == '\t' || c == '\r' || c as int == 8 || c as int == 12 {
      assert t[2..] == rest;
    } else if c as int < 0x20 || c as int == 0x7f {
      NumberOfFour(c as int);
      assert t[2..6] == FourDigits(c as int);
      assert t[6..] == rest;
      assert t[1] == 'u';
    } else {
      assert t[1..] == rest;
    }
  }

  lemma {:induction false} BodyRoundTrip(s: string)
    ensures Body(Escaped(s) + "\"") == Some(s)
  {
    if s != "" {
      BodyRoundTrip(s[1..]);
      assert Escaped(s) + "\"" == Escape(s[0]) + (Escaped(s[1..]) + "\"");
      ReadsOne(s[0], Escaped(s[1..]) + "\"");
      assert [s[0]] + s[1..] == s;
    } else {
      assert Escaped(s) + "\"" == "\"";
    }
  }

  /** Whatever is written is read back as it was. */
  lemma {:induction false} QuotedRoundTrip(s: string)
    ensures Read(Quoted(s)) == Some(s)
  {
    BodyRoundTrip(s);
    assert Quoted(s)[1..] == Escaped(s) + "\"";
  }

  lemma {:induction false} NothingRawInOne(c: char)
    ensures forall x :: x in Escape(c) ==> x as int >= 0x20 && x as int != 0x7f
  {
  }

  lemma {:induction false} NothingRawIn(s: string)
    ensures forall x :: x in Escaped(s) ==> x as int >= 0x20 && x as int != 0x7f
  {
    if s != "" {
      hide Escape;
      NothingRawInOne(s[0]);
      NothingRawIn(s[1..]);
    }
  }

  /** What is written has no control character in it, so it stays on one line. */
  lemma {:induction false} QuotedIsOneLine(s: string)
    ensures forall x :: x in Quoted(s) ==> x as int >= 0x20 && x as int != 0x7f
  {
    NothingRawIn(s);
  }
}
