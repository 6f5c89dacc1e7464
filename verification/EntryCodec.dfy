/** The JSON string coding of `user_call` values: `_encode_entry_value` and
    `_decode_entry_value` (memory/manager.py). */
module EntryCodec {
  import opened Text

  const HEX := "0123456789abcdef"

  function EscapeChar(c: char): (r: string)
    ensures r != "" && OneLine(r)
  {
    if c == '"' then "\\\""
    else if c == '\\' then "\\\\"
    else if c == '\n' then "\\n"
    else if c == '\r' then "\\r"
    else if c == '\t' then "\\t"
    else if c == '\U{08}' then "\\b"
    else if c == '\U{0C}' then "\\f"
    else if c < ' ' then "\\u00" + [HEX[c as int / 16], HEX[c as int % 16]]
    else [c]
  }

  function EncodeBody(value: string): string {
    if value == "" then "" else EscapeChar(value[0]) + EncodeBody(value[1..])
  }

  function Encode(value: string): string {
    "\"" + EncodeBody(value) + "\""
  }

  function HexValue(c: char): Option<nat> {
    if '0' <= c <= '9' then Some(c as int - '0' as int)
    else if 'a' <= c <= 'f' then Some(c as int - 'a' as int + 10)
    else if 'A' <= c <= 'F' then Some(c as int - 'A' as int + 10)
    else None
  }

  function HexCode(s: string): Option<nat> {
    if s == "" then Some(0)
    else
      match (HexCode(s[..|s| - 1]), HexValue(s[|s| - 1]))
      case (Some(high), Some(low)) => Some(16 * high + low)
      case _ => None
  }

  function SimpleEscape(c: char): Option<char> {
    match c
    case '"' => Some('"')
    case '\\' => Some('\\')
    case '/' => Some('/')
    case 'n' => Some('\n')
    case 'r' => Some('\r')
    case 't' => Some('\t')
    case 'b' => Some('\U{08}')
    case 'f' => Some('\U{0C}')
    case _ => None
  }

  /** The characters up to a closing quote that ends the text; None if it is no such text. */
  function ParseBody(s: string): Option<string> {
    if s == "" || s[0] < ' ' then None
    else if s[0] == '"' then if |s| == 1 then Some("") else None
    else if s[0] != '\\' then Prefixed(s[0], ParseBody(s[1..]))
    else if |s| == 1 then None
    else if s[1] == 'u' then
      if |s| < 6 then None
      else
        match HexCode(s[2..6])
        case Some(code) => if code < 0xD800 then Prefixed(code as char, ParseBody(s[6..])) else None
        case None => None
    else
      match SimpleEscape(s[1])
      case Some(c) => Prefixed(c, ParseBody(s[2..]))
      case None => None
  }

  function Prefixed(c: char, rest: Option<string>): Option<string> {
    if rest.None? then None else Some([c] + rest.value)
  }

  function Decode(raw: string): Option<string> {
    var s := Strip(raw);
    if s != "" && s[0] == '"' then ParseBody(s[1..]) else None
  }

  // ---------- the coding is faithful and keeps to one line ----------

  lemma ControlCode(c: char)
    requires c < ' '
    ensures HexCode("00" + [HEX[c as int / 16], HEX[c as int % 16]]) == Some(c as int)
  {
    var h, l := HEX[c as int / 16], HEX[c as int % 16];
    var s := "00" + [h, l];
    assert s[..3] == ['0', '0', h] && ['0', '0', h][..2] == ['0', '0'] && ['0', '0'][..1] == ['0'] && ['0'][..0] == "";
    assert HexCode(['0']) == Some(0);
    assert HexCode(['0', '0']) == Some(0);
    HexDigit(c as int / 16);
    HexDigit(c as int % 16);
    assert HexCode(['0', '0', h]) == Some(c as int / 16);
  }

  lemma HexDigit(n: nat)
    requires n < 16
    ensures HexValue(HEX[n]) == Some(n)
  {
    assert HEX == ['0', '1', '2', '3', '4', '5', '6', '7', '8', '9', 'a', 'b', 'c', 'd', 'e', 'f'];
  }

  lemma ParseEscaped(c: char, rest: string)
    ensures ParseBody(EscapeChar(c) + rest) == Prefixed(c, ParseBody(rest))
  {
    var s := EscapeChar(c) + rest;
    if |EscapeChar(c)| == 6 {
      ControlCode(c);
      assert s[2..6] == "00" + [HEX[c as int / 16], HEX[c as int % 16]] && s[6..] == rest;
    } else if |EscapeChar(c)| == 2 {
      assert s[2..] == rest;
    } else {
      assert s[1..] == rest;
    }
  }

  lemma {:induction false} ParseEncoded(value: string)
    ensures ParseBody(EncodeBody(value) + "\"") == Some(value)
  {
    if value == "" {
      assert EncodeBody(value) + "\"" == "\"";
    } else {
      ParseEncoded(value[1..]);
      ParseEscaped(value[0], EncodeBody(value[1..]) + "\"");
      assert EncodeBody(value) + "\"" == EscapeChar(value[0]) + (EncodeBody(value[1..]) + "\"");
      assert [value[0]] + value[1..] == value;
    }
  }

  /** Decoding what was encoded, blanks in front included, gives the value back. */
  lemma DecodeEncode(pad: string, value: string)
    requires Blank(pad)
    ensures Decode(pad + Encode(value)) == Some(value)
  {
    var coded := Encode(value);
    ParseEncoded(value);
    assert coded[0] == '"' && coded[|coded| - 1] == '"' && coded[1..] == EncodeBody(value) + "\"";
    StripPadding(pad, coded);
  }

  lemma {:induction false} BodyOneLine(value: string)
    ensures OneLine(EncodeBody(value))
  {
    if value != "" {
      BodyOneLine(value[1..]);
    }
  }

  lemma EncodeOneLine(value: string)
    ensures OneLine(Encode(value))
  {
    BodyOneLine(value);
  }

  /** Texts without quotes, backslashes and control characters are only put in quotes. */
  lemma {:induction false} EncodePlain(value: string)
    requires forall i :: 0 <= i < |value| ==> value[i] >= ' ' && value[i] != '"' && value[i] != '\\'
    ensures Encode(value) == "\"" + value + "\""
  {
    BodyPlain(value);
  }

  lemma {:induction false} BodyPlain(value: string)
    requires forall i :: 0 <= i < |value| ==> value[i] >= ' ' && value[i] != '"' && value[i] != '\\'
    ensures EncodeBody(value) == value
  {
    if value != "" {
      BodyPlain(value[1..]);
      assert value == [value[0]] + value[1..];
    }
  }

  /** Characters are coded one by one; these have an escape of their own, the other control
      characters one by number. */
  lemma {:induction false} BodyConcat(a: string, b: string)
    ensures EncodeBody(a + b) == EncodeBody(a) + EncodeBody(b)
  {
    if a == "" {
      assert a + b == b;
    } else {
      FirstOf(a, b);
      BodyConcat(a[1..], b);
      Assoc(EscapeChar(a[0]), EncodeBody(a[1..]), EncodeBody(b));
    }
  }

  lemma EscapesAre(c: char, e: char)
    ensures (c, e) in {('"', '"'), ('\\', '\\'), ('\n', 'n'), ('\r', 'r')} ==> EncodeBody([c]) == ['\\', e]
    ensures (c, e) in {('\t', 't'), ('\U{08}', 'b'), ('\U{0C}', 'f')} ==> EncodeBody([c]) == ['\\', e]
    ensures c < ' ' && c !in {'\n', '\r', '\t', '\U{08}', '\U{0C}'} ==>
            EncodeBody([c]) == "\\u00" + [HEX[c as int / 16], HEX[c as int % 16]]
  {
    assert [c][1..] == "" && EncodeBody([c]) == EscapeChar(c) + "";
  }

  /** Both cases of hexadecimal digits are read, and nothing else is. */
  lemma HexDigitsAre(c: char, n: nat)
    requires n < 16
    ensures c == "0123456789abcdef"[n] || c == "0123456789ABCDEF"[n] ==> HexValue(c) == Some(n)
    ensures c !in "0123456789abcdefABCDEF" ==> HexValue(c).None?
  {
    HexDigit(n);
    assert "0123456789ABCDEF" == ['0', '1', '2', '3', '4', '5', '6', '7', '8', '9', 'A', 'B', 'C', 'D', 'E', 'F'];
  }

  lemma {:induction false} RejectedBehind(value: string, tail: string)
    requires ParseBody(tail).None?
    ensures ParseBody(EncodeBody(value) + tail).None?
  {
    if value == "" {
      assert EncodeBody(value) + tail == tail;
    } else {
      RejectedBehind(value[1..], tail);
      ParseEscaped(value[0], EncodeBody(value[1..]) + tail);
      Assoc(EscapeChar(value[0]), EncodeBody(value[1..]), tail);
    }
  }

  /** Anything behind the closing quote makes the text no value at all. */
  lemma TrailingRejected(value: string, rest: string)
    requires rest != ""
    ensures ParseBody(EncodeBody(value) + ("\"" + rest)).None?
  {
    RejectedBehind(value, "\"" + rest);
  }
}
