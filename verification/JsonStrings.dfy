/** Reading back a JSON string (section 7 of RFC 8259): what quoteJSONString writes
    (internal/protocol/openai_responses.go:965-968) stands for the text it was given. */
module JsonStrings {
  import opened Canonical
  import opened ResponsesInput

  function HexValue(c: char): Option<int> {
    if '0' <= c <= '9' then Some(c as int - '0' as int)
    else if 'a' <= c <= 'f' then Some(c as int - 'a' as int + 10)
    else if 'A' <= c <= 'F' then Some(c as int - 'A' as int + 10)
    else None
  }

  /** The character of four hexadecimal digits; none for half of a surrogate pair. */
  function CodeUnit(digits: string): Option<char>
    requires |digits| == 4
  {
    var a, b, c, d := HexValue(digits[0]), HexValue(digits[1]), HexValue(digits[2]), HexValue(digits[3]);
    if a.None? || b.None? || c.None? || d.None? then None else
      var unit := a.value * 4096 + b.value * 256 + c.value * 16 + d.value;
      if 0 <= unit < 0xD800 then Some(unit as char) else None
  }

  /** The character of an escape with one letter. */
  function Letter(c: char): Option<char> {
    match c
    case '\"' => Some('\"')
    case '\\' => Some('\\')
    case '/' => Some('/')
    case 'b' => Some('\U{8}')
    case 'f' => Some('\U{C}')
    case 'n' => Some('\n')
    case 'r' => Some('\r')
    case 't' => Some('\t')
    case _ => None
  }

  function Prepend(c: Option<char>, rest: Option<string>): Option<string> {
    if c.None? || rest.None? then None else Some([c.value] + rest.value)
  }

  /** The text between the quotes. */
  function Unescape(e: string): Option<string> {
    if e == "" then Some("")
    else if e[0] == '\"' || e[0] < ' ' then None
    else if e[0] != '\\' then Prepend(Some(e[0]), Unescape(e[1..]))
    else if |e| >= 6 && e[1] == 'u' then Prepend(CodeUnit(e[2..6]), Unescape(e[6..]))
    else if |e| >= 2 then Prepend(Letter(e[1]), Unescape(e[2..]))
    else None
  }

  function Unquote(q: string): Option<string> {
    if |q| < 2 || q[0] != '\"' || q[|q| - 1] != '\"' then None else Unescape(q[1..|q| - 1])
  }

  lemma HexIsRead(n: int)
    requires 0 <= n < 16
    ensures HexValue(Hex(n)) == Some(n)
  {
    assert Hex(n) == "0123456789abcdef"[n];
  }

  lemma CharIsRead(c: char, rest: string)
    ensures Unescape(Escape(c) + rest) == Prepend(Some(c), Unescape(rest))
  {
    hide Escape;
    var e := Escape(c);
    if |e| == 6 {
      LongEscape(c);
      assert (e + rest)[2..6] == e[2..] && (e + rest)[6..] == rest;
    } else {
      ShortEscape(c);
      assert |e| == 2 ==> (e + rest)[2..] == rest;
      assert |e| == 1 ==> (e + rest)[1..] == rest;
    }
  }

  lemma LongEscape(c: char)
    requires |Escape(c)| == 6
    ensures Escape(c)[0] == '\\' && Escape(c)[1] == 'u' && CodeUnit(Escape(c)[2..]) == Some(c)
  {
    hide CodeUnit, Hex;
    if c == '\U{2028}' || c == '\U{2029}' {
      LineBreaks();
    } else {
      TwoDigits(c);
      assert Escape(c)[2..] == "00" + [Hex(c as int / 16 % 16), Hex(c as int % 16)];
    }
  }

  lemma LineBreaks()
    ensures CodeUnit("2028") == Some('\U{2028}') && CodeUnit("2029") == Some('\U{2029}')
  {}

  lemma TwoDigits(c: char)
    requires c as int < 256
    ensures CodeUnit("00" + [Hex(c as int / 16 % 16), Hex(c as int % 16)]) == Some(c)
  {
    hide Hex, HexValue;
    var a, b := c as int / 16 % 16, c as int % 16;
    HexIsRead(a);
    HexIsRead(b);
    assert HexValue('0') == Some(0) by { ZeroIsRead(); }
    assert a * 16 + b == c as int;
  }

  lemma ZeroIsRead()
    ensures HexValue('0') == Some(0)
  {}

  lemma ShortEscape(c: char)
    requires |Escape(c)| != 6
    ensures var e := Escape(c);
            || (e == [c] && c != '\"' && c != '\\' && c >= ' ')
            || (|e| == 2 && e[0] == '\\' && e[1] != 'u' && Letter(e[1]) == Some(c))
  {}

  lemma {:induction false} EscapeFirst(c: char, s: string)
    ensures EscapeAll([c] + s) == Escape(c) + EscapeAll(s)
  {
    hide Escape;
    if s == "" {
      assert [c] + s == [c] && [c][..0] == "";
      assert EscapeAll("") + Escape(c) == Escape(c) + EscapeAll("");
    } else {
      assert ([c] + s)[..|s|] == [c] + s[..|s| - 1];
      EscapeFirst(c, s[..|s| - 1]);
    }
  }

  lemma {:induction false} AllAreRead(s: string)
    ensures Unescape(EscapeAll(s)) == Some(s)
  {
    hide Escape;
    if s != "" {
      AllAreRead(s[1..]);
      assert s == [s[0]] + s[1..];
      EscapeFirst(s[0], s[1..]);
      CharIsRead(s[0], EscapeAll(s[1..]));
    }
  }

  /** A quoted text is a JSON string that reads as the text. */
  lemma QuotedIsRead(s: string)
    ensures Unquote(Quote(s)) == Some(s)
  {
    hide EscapeAll;
    var q := Quote(s);
    assert q[1..|q| - 1] == EscapeAll(s);
    AllAreRead(s);
  }
}
