/** Base64 with padding, section 4 of RFC 4648, as Go's `base64.StdEncoding`. */
module Base64 {
  import opened ExecTypes

  /** The symbol of a 6-bit value. */
  function Symbol(v: nat): char
    requires v < 64
  {
    if v < 26 then 'A' + v as char
    else if v < 52 then 'a' + (v - 26) as char
    else if v < 62 then '0' + (v - 52) as char
    else if v == 62 then '+' else '/'
  }

  function SymbolValue(c: char): (r: Option<nat>)
    ensures r.Some? ==> r.value < 64
  {
    if 'A' <= c <= 'Z' then Some((c - 'A') as nat)
    else if 'a' <= c <= 'z' then Some((c - 'a') as nat + 26)
    else if '0' <= c <= '9' then Some((c - '0') as nat + 52)
    else if c == '+' then Some(62)
    else if c == '/' then Some(63)
    else None
  }

  /** One to three bytes make four symbols, the missing ones replaced by padding. */
  function EncodeGroup(b: seq<byte>): (r: string)
    requires 1 <= |b| <= 3
    ensures |r| == 4
  {
    if |b| == 1 then [Symbol(b[0] / 4), Symbol(b[0] % 4 * 16), '=', '=']
    else if |b| == 2 then [Symbol(b[0] / 4), Symbol(b[0] % 4 * 16 + b[1] / 16), Symbol(b[1] % 16 * 4), '=']
    else [Symbol(b[0] / 4), Symbol(b[0] % 4 * 16 + b[1] / 16), Symbol(b[1] % 16 * 4 + b[2] / 64), Symbol(b[2] % 64)]
  }

  function Encode(b: seq<byte>): string {
    if b == [] then "" else EncodeGroup(b[..Min(3, |b|)]) + Encode(b[Min(3, |b|)..])
  }

  /** The bytes of one four-symbol group; only the last group may be padded. */
  function DecodeGroup(s: string, last: bool): Option<seq<byte>>
    requires |s| == 4
  {
    match (SymbolValue(s[0]), SymbolValue(s[1]), SymbolValue(s[2]), SymbolValue(s[3]))
    case (Some(v), Some(w), Some(x), Some(y)) =>
      Some([v * 4 + w / 16, w % 16 * 16 + x / 4, x % 4 * 64 + y])
    case (Some(v), Some(w), Some(x), None) =>
      if last && s[3] == '=' then Some([v * 4 + w / 16, w % 16 * 16 + x / 4]) else None
    case (Some(v), Some(w), None, None) =>
      if last && s[2] == '=' && s[3] == '=' then Some([v * 4 + w / 16]) else None
    case _ => None
  }

  function Decode(s: string): Option<seq<byte>> {
    if s == "" then Some([])
    else if |s| < 4 then None
    else
      match (DecodeGroup(s[..4], |s| == 4), Decode(s[4..]))
      case (Some(group), Some(rest)) => Some(group + rest)
      case _ => None
  }

  lemma {:induction false} SymbolRoundTrip(v: nat)
    requires v < 64
    ensures SymbolValue(Symbol(v)) == Some(v) && SymbolValue('=') == None
  {
  }

  lemma {:induction false} HighLow(high: nat, low: nat, base: nat)
    requires low < base && (base == 4 || base == 16 || base == 64)
    ensures (high * base + low) / base == high && (high * base + low) % base == low
  {
  }

  lemma {:induction false} OneByteGroup(p: byte)
    ensures DecodeGroup(EncodeGroup([p]), true) == Some([p])
  {
    hide Symbol;
    hide SymbolValue;
    SymbolRoundTrip(p / 4);
    SymbolRoundTrip(p % 4 * 16);
    HighLow(p % 4, 0, 16);
  }

  lemma {:induction false} TwoByteGroup(p: byte, q: byte)
    ensures DecodeGroup(EncodeGroup([p, q]), true) == Some([p, q])
  {
    hide Symbol;
    hide SymbolValue;
    SymbolRoundTrip(p / 4);
    SymbolRoundTrip(p % 4 * 16 + q / 16);
    SymbolRoundTrip(q % 16 * 4);
    HighLow(p % 4, q / 16, 16);
    HighLow(q % 16, 0, 4);
  }

  lemma {:induction false} ThreeByteGroup(p: byte, q: byte, r: byte, last: bool)
    ensures DecodeGroup(EncodeGroup([p, q, r]), last) == Some([p, q, r])
  {
    hide Symbol;
    hide SymbolValue;
    SymbolRoundTrip(p / 4);
    SymbolRoundTrip(p % 4 * 16 + q / 16);
    SymbolRoundTrip(q % 16 * 4 + r / 64);
    SymbolRoundTrip(r % 64);
    HighLow(p % 4, q / 16, 16);
    HighLow(q % 16, r / 64, 4);
  }

  lemma {:induction false} GroupRoundTrip(b: seq<byte>, last: bool)
    requires 1 <= |b| <= 3 && (last || |b| == 3)
    ensures DecodeGroup(EncodeGroup(b), last) == Some(b)
  {
    hide EncodeGroup;
    hide DecodeGroup;
    if |b| == 1 {
      OneByteGroup(b[0]);
      assert b == [b[0]];
    } else if |b| == 2 {
      TwoByteGroup(b[0], b[1]);
      assert b == [b[0], b[1]];
    } else {
      ThreeByteGroup(b[0], b[1], b[2], last);
      assert b == [b[0], b[1], b[2]];
    }
  }

  /** Every byte string survives encoding and decoding. */
  lemma {:induction false} Base64RoundTrip(b: seq<byte>)
    ensures Decode(Encode(b)) == Some(b)
    decreases |b|
  {
    hide EncodeGroup;
    hide DecodeGroup;
    if b != [] {
      var e, n := Encode(b), Min(3, |b|);
      Base64RoundTrip(b[n..]);
      GroupRoundTrip(b[..n], |e| == 4);
      assert e[..4] == EncodeGroup(b[..n]) && e[4..] == Encode(b[n..]);
      assert b == b[..n] + b[n..];
    }
  }

  lemma {:induction false} OneGroup(b: seq<byte>)
    requires 1 <= |b| <= 3
    ensures Encode(b) == EncodeGroup(b)
  {
    hide EncodeGroup;
    assert b[..|b|] == b && b[|b|..] == [];
    assert Encode([]) == "";
  }

  lemma {:induction false} FullGroup(b: seq<byte>, rest: seq<byte>)
    requires |b| == 3
    ensures Encode(b + rest) == EncodeGroup(b) + Encode(rest)
  {
    hide EncodeGroup;
    assert (b + rest)[..3] == b && (b + rest)[3..] == rest;
  }

  lemma {:induction false} SymbolsOfTheVectors()
    ensures Symbol(24) == 'Y' && Symbol(25) == 'Z' && Symbol(32) == 'g' && Symbol(38) == 'm' && Symbol(47) == 'v'
    ensures Symbol(60) == '8' && Symbol(61) == '9' && Symbol(62) == '+' && Symbol(63) == '/'
  {
  }

  lemma {:induction false} GroupVectors()
    ensures EncodeGroup([102, 111, 111]) == "Zm9v" && EncodeGroup([98]) == "Yg=="
    ensures EncodeGroup([102, 111]) == "Zm8=" && EncodeGroup([102]) == "Zg==" && EncodeGroup([251, 255]) == "+/8="
  {
    SymbolsOfTheVectors();
    hide Symbol;
  }

  /** Test vectors of section 10 of RFC 4648, and the two symbols that are neither letters nor digits. */
  lemma {:induction false} StandardVectors()
    ensures Encode([]) == "" && Encode([102]) == "Zg==" && Encode([102, 111]) == "Zm8="
    ensures Encode([102, 111, 111]) == "Zm9v" && Encode([102, 111, 111, 98]) == "Zm9vYg=="
    ensures Encode([251, 255]) == "+/8="
  {
    hide EncodeGroup;
    GroupVectors();
    assert Encode([]) == "";
    OneGroup([102]);
    OneGroup([98]);
    OneGroup([102, 111]);
    OneGroup([102, 111, 111]);
    OneGroup([251, 255]);
    FullGroup([102, 111, 111], [98]);
    hide Encode;
    assert [102, 111, 111] + [98] == [102, 111, 111, 98];
  }

  /** Characters that need no escape in a JSON string and end no line. */
  predicate Plain(c: char) {
    SymbolValue(c).Some? || c == '='
  }

  lemma {:induction false} GroupIsPlain(b: seq<byte>)
    requires 1 <= |b| <= 3
    ensures forall i :: 0 <= i < 4 ==> Plain(EncodeGroup(b)[i])
  {
    SymbolRoundTrip(b[0] / 4);
    if |b| == 1 {
      SymbolRoundTrip(b[0] % 4 * 16);
    } else {
      SymbolRoundTrip(b[0] % 4 * 16 + b[1] / 16);
      if |b| == 2 {
        SymbolRoundTrip(b[1] % 16 * 4);
      } else {
        SymbolRoundTrip(b[1] % 16 * 4 + b[2] / 64);
        SymbolRoundTrip(b[2] % 64);
      }
    }
  }

  lemma {:induction false} EncodedIsPlain(b: seq<byte>)
    ensures forall i :: 0 <= i < |Encode(b)| ==> Plain(Encode(b)[i])
    decreases |b|
  {
    hide EncodeGroup;
    hide Plain;
    if b != [] {
      GroupIsPlain(b[..Min(3, |b|)]);
      EncodedIsPlain(b[Min(3, |b|)..]);
    }
  }
}
