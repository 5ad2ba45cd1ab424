/**
 Reading a JSON object of one member, RFC 8259: sections 4 and 7, and the integers of section 6. Strings with
 escapes, numbers with a fraction or an exponent, and other values are not accepted.
 */
module JsonObject {
  import opened ExecTypes
  import opened Decimal

  datatype JsonValue = Text(text: string) | Number(n: int)

  datatype Member = Member(name: string, value: JsonValue)

  predicate IsSpace(c: char) {
    c == ' ' || c == '\t' || c == '\n' || c == '\r'
  }

  function SkipSpace(s: string): string {
    if s != "" && IsSpace(s[0]) then SkipSpace(s[1..]) else s
  }

  /** What follows `c`, which may have space before it. */
  function Expect(c: char, s: string): Option<string> {
    var t := SkipSpace(s);
    if t != "" && t[0] == c then Some(t[1..]) else None
  }

  /** A character that stands for itself in a string. */
  predicate Unescaped(c: char) {
    c >= ' ' && c != '"' && c != '\\'
  }

  /** The characters of a string up to its closing quote, and what follows that. */
  function TakeChars(s: string): Option<(string, string)> {
    if s == "" then None
    else if s[0] == '"' then Some(("", s[1..]))
    else if !Unescaped(s[0]) then None
    else
      match TakeChars(s[1..])
      case Some((text, rest)) => Some(([s[0]] + text, rest))
      case None => None
  }

  /** The digits at the front, and what follows them. */
  function TakeDigits(s: string): (r: (string, string))
    ensures AllDigits(r.0)
  {
    if s != "" && IsDigit(s[0]) then
      var (digits, rest) := TakeDigits(s[1..]);
      ([s[0]] + digits, rest)
    else ("", s)
  }

  /** An integer: no plus sign, no leading zero. */
  function TakeInt(s: string): Option<(int, string)> {
    var negative := s != "" && s[0] == '-';
    var (digits, rest) := TakeDigits(if negative then s[1..] else s);
    if digits == "" || (|digits| > 1 && digits[0] == '0') then None
    else Some((if negative then -(Value(digits) as int) else Value(digits), rest))
  }

  function TakeValue(s: string): Option<(JsonValue, string)> {
    if s != "" && s[0] == '"' then
      match TakeChars(s[1..])
      case Some((text, rest)) => Some((Text(text), rest))
      case None => None
    else
      match TakeInt(s)
      case Some((n, rest)) => Some((Number(n), rest))
      case None => None
  }

  /** The member of an object that has just one. */
  function ReadObject(s: string): Option<Member> {
    match Expect('{', s)
    case None => None
    case Some(s1) =>
      match Expect('"', s1)
      case None => None
      case Some(s2) =>
        match TakeChars(s2)
        case None => None
        case Some((name, s3)) =>
          match Expect(':', s3)
          case None => None
          case Some(s4) =>
            match TakeValue(SkipSpace(s4))
            case None => None
            case Some((value, s5)) =>
              match Expect('}', s5)
              case None => None
              case Some(s6) => if SkipSpace(s6) == "" then Some(Member(name, value)) else None
  }

  ghost predicate AllUnescaped(s: string) {
    forall i :: 0 <= i < |s| ==> Unescaped(s[i])
  }

  lemma {:induction false} CharsTaken(text: string, rest: string)
    requires AllUnescaped(text)
    ensures TakeChars(text + "\"" + rest) == Some((text, rest))
    decreases |text|
  {
    var s := text + "\"" + rest;
    if text == "" {
      assert s[1..] == rest;
    } else {
      assert s[0] == text[0] && s[1..] == text[1..] + "\"" + rest;
      CharsTaken(text[1..], rest);
      assert text == [text[0]] + text[1..];
    }
  }

  lemma {:induction false} DigitsTaken(digits: string, rest: string)
    requires AllDigits(digits) && (rest == "" || !IsDigit(rest[0]))
    ensures TakeDigits(digits + rest) == (digits, rest)
    decreases |digits|
  {
    var s := digits + rest;
    if digits == "" {
      assert s == rest;
    } else {
      assert s[0] == digits[0] && s[1..] == digits[1..] + rest;
      DigitsTaken(digits[1..], rest);
      assert digits == [digits[0]] + digits[1..];
    }
  }

  lemma {:induction false} NoLeadingZero(n: nat)
    ensures Unsigned(n) != "" && (|Unsigned(n)| > 1 ==> Unsigned(n)[0] != '0') && Unsigned(n)[0] != '-'
    ensures n > 0 ==> Unsigned(n)[0] != '0'
  {
    if n >= 10 {
      NoLeadingZero(n / 10);
    }
  }

  lemma {:induction false} DigitsAreInt(digits: string, rest: string)
    requires AllDigits(digits) && digits != "" && (|digits| > 1 ==> digits[0] != '0')
    requires rest == "" || !IsDigit(rest[0])
    ensures TakeInt(digits + rest) == Some((Value(digits), rest))
    ensures TakeInt("-" + digits + rest) == Some((-(Value(digits) as int), rest))
  {
    hide Value;
    DigitsTaken(digits, rest);
    hide TakeDigits;
    var plain, negative := digits + rest, "-" + digits + rest;
    assert plain[0] == digits[0] != '-';
    assert negative[0] == '-' && negative[1..] == plain;
  }

  lemma {:induction false} IntTaken(n: int, rest: string)
    requires rest == "" || !IsDigit(rest[0])
    ensures TakeInt(Signed(n) + rest) == Some((n, rest))
  {
    hide TakeInt;
    var m: nat := if n < 0 then -n else n;
    UnsignedDigits(m);
    NoLeadingZero(m);
    DigitsAreInt(Unsigned(m), rest);
    hide Unsigned;
    hide Value;
  }

  lemma {:induction false} Expected(c: char, s: string)
    requires !IsSpace(c)
    ensures Expect(c, [c] + s) == Some(s)
  {
    assert ([c] + s)[1..] == s;
  }

  lemma {:induction false} NothingLeft()
    ensures SkipSpace("") == ""
  {
  }

  /** Up to the value: `{"name":` and then `s`. */
  lemma {:induction false} NameIsRead(name: string, s: string, value: JsonValue)
    requires AllUnescaped(name) && s != "" && !IsSpace(s[0]) && TakeValue(s) == Some((value, "}"))
    ensures ReadObject("{\"" + name + "\":" + s) == Some(Member(name, value))
  {
    hide TakeValue;
    hide TakeChars;
    var s3 := ":" + s;
    var s1 := "\"" + (name + "\"" + s3);
    assert "{\"" + name + "\":" + s == "{" + s1;
    hide Expect;
    Expected('{', s1);
    Expected('"', name + "\"" + s3);
    CharsTaken(name, s3);
    Expected(':', s);
    assert SkipSpace(s) == s;
    assert "}" == "}" + "";
    Expected('}', "");
    NothingLeft();
  }

  lemma {:induction false} TextMemberIsRead(name: string, text: string)
    requires AllUnescaped(name) && AllUnescaped(text)
    ensures ReadObject("{\"" + name + "\":\"" + text + "\"}") == Some(Member(name, Text(text)))
  {
    var s := "\"" + (text + "\"" + "}");
    CharsTaken(text, "}");
    assert s[1..] == text + "\"" + "}";
    assert "{\"" + name + "\":\"" + text + "\"}" == "{\"" + name + "\":" + s;
    NameIsRead(name, s, Text(text));
  }

  lemma {:induction false} NumberMemberIsRead(name: string, n: int)
    requires AllUnescaped(name)
    ensures ReadObject("{\"" + name + "\":" + Signed(n) + "}") == Some(Member(name, Number(n)))
  {
    var s := Signed(n) + "}";
    IntTaken(n, "}");
    UnsignedDigits(if n < 0 then -n else n);
    assert s[0] == Signed(n)[0];
    assert "{\"" + name + "\":" + Signed(n) + "}" == "{\"" + name + "\":" + s;
    NameIsRead(name, s, Number(n));
  }
}
