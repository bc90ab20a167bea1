/** The JSON text that `JSON.stringify` writes and `JSON.parse` reads, restricted to what the core
    stores: flat objects whose members are strings, integers or null. Encoding and decoding are
    concrete functions here, and the round trip `Decode(Encode(ms)) == Some(ms)` is proved. */
module Json {
  import opened Common

  datatype Value = Str(s: string) | Num(n: int) | Null

  type Member = (string, Value)

  // ---------------------------------------------------------------------------------------------
  // Integers as decimal text (also what `Number.prototype.toString` gives for an integer)

  predicate IsDigit(c: char) {
    '0' <= c <= '9'
  }

  predicate AllDigits(s: string) {
    forall i :: 0 <= i < |s| ==> IsDigit(s[i])
  }

  predicate NoDigitFirst(s: string) {
    s == [] || !IsDigit(s[0])
  }

  function DigitChar(d: nat): (c: char)
    requires d < 10
    ensures IsDigit(c) && c as int - '0' as int == d
  {
    ('0' as int + d) as char
  }

  function NatToString(n: nat): (s: string)
    ensures |s| > 0 && AllDigits(s)
    decreases n
  {
    if n < 10 then [DigitChar(n)] else NatToString(n / 10) + [DigitChar(n % 10)]
  }

  function IntToString(n: int): (s: string)
    ensures |s| > 0 && (s[0] == '-' || IsDigit(s[0]))
  {
    if n < 0 then "-" + NatToString(-n) else NatToString(n)
  }

  /** The decimal text of an integer ends with a digit. */
  lemma IntToStringEndsWithDigit(n: int)
    ensures IsDigit(IntToString(n)[|IntToString(n)| - 1])
  {
    if n < 0 {
      var t := NatToString(-n);
      assert IntToString(n)[|IntToString(n)| - 1] == t[|t| - 1];
    }
  }

  /** The number a run of decimal digits denotes. */
  function DigitsValue(ds: string): nat
    requires AllDigits(ds)
    decreases |ds|
  {
    if ds == [] then 0 else DigitsValue(ds[..|ds| - 1]) * 10 + (ds[|ds| - 1] as int - '0' as int)
  }

  lemma {:induction false} NatToStringValue(n: nat)
    ensures DigitsValue(NatToString(n)) == n
    decreases n
  {
    if n >= 10 {
      NatToStringValue(n / 10);
      var s := NatToString(n);
      assert s[..|s| - 1] == NatToString(n / 10);
    }
  }

  /** The length of the run of digits that starts `s`. */
  function DigitRun(s: string): (k: nat)
    ensures k <= |s| && AllDigits(s[..k]) && (k < |s| ==> !IsDigit(s[k]))
    decreases |s|
  {
    if s == [] || !IsDigit(s[0]) then 0
    else
      var k := DigitRun(s[1..]);
      assert s[..1 + k] == [s[0]] + s[1..][..k];
      1 + k
  }

  lemma {:induction false} DigitRunOf(ds: string, rest: string)
    requires AllDigits(ds) && NoDigitFirst(rest)
    ensures DigitRun(ds + rest) == |ds|
    decreases |ds|
  {
    if ds == [] {
      assert ds + rest == rest;
    } else {
      assert (ds + rest)[1..] == ds[1..] + rest;
      DigitRunOf(ds[1..], rest);
    }
  }

  function ParseNat(s: string): (r: Option<(nat, string)>)
    ensures r.Some? ==> |r.value.1| < |s|
  {
    var k := DigitRun(s);
    if k == 0 then None else Some((DigitsValue(s[..k]), s[k..]))
  }

  /** Reads an optionally negative decimal integer from the front of `s`. */
  function ParseInt(s: string): (r: Option<(int, string)>)
    ensures r.Some? ==> |r.value.1| < |s|
  {
    if s != [] && s[0] == '-' then
      match ParseNat(s[1..])
      case None => None
      case Some((n, rest)) => var m: int := n; Some((-m, rest))
    else
      match ParseNat(s)
      case None => None
      case Some((n, rest)) => Some((n as int, rest))
  }

  lemma ParseNatToString(n: nat, rest: string)
    requires NoDigitFirst(rest)
    ensures ParseNat(NatToString(n) + rest) == Some((n, rest))
  {
    var ds := NatToString(n);
    DigitRunOf(ds, rest);
    assert (ds + rest)[..|ds|] == ds;
    assert (ds + rest)[|ds|..] == rest;
    NatToStringValue(n);
  }

  /** Decimal text of an integer reads back as that integer, whatever non-digit follows it. */
  lemma IntToStringRoundTrip(n: int, rest: string)
    requires NoDigitFirst(rest)
    ensures ParseInt(IntToString(n) + rest) == Some((n, rest))
  {
    if n < 0 {
      NegativeRoundTrip(n, rest);
    } else {
      var ds := NatToString(n);
      assert (ds + rest)[0] == ds[0] && IsDigit(ds[0]);
      ParseNatToString(n, rest);
    }
  }

  lemma NegativeRoundTrip(n: int, rest: string)
    requires n < 0 && NoDigitFirst(rest)
    ensures ParseInt(IntToString(n) + rest) == Some((n, rest))
  {
    var ds := NatToString(-n);
    Regroup("-", ds, rest);
    Head("-", ds + rest);
    ParseNatToString(-n, rest);
    ParseNegative(IntToString(n) + rest, -n, rest);
  }

  lemma ParseNegative(s: string, m: nat, rest: string)
    requires s != [] && s[0] == '-' && ParseNat(s[1..]) == Some((m, rest))
    ensures ParseInt(s) == Some((-(m as int), rest))
  {
  }

  /** Distinct integers have distinct decimal texts. */
  lemma IntToStringInjective(a: int, b: int)
    requires IntToString(a) == IntToString(b)
    ensures a == b
  {
    assert IntToString(a) + [] == IntToString(a);
    assert IntToString(b) + [] == IntToString(b);
    IntToStringRoundTrip(a, []);
    IntToStringRoundTrip(b, []);
  }

  // ---------------------------------------------------------------------------------------------
  // String literals

  /** The body of a string literal: quote and backslash are preceded by a backslash. */
  function Escape(s: string): string
    decreases |s|
  {
    if s == [] then []
    else (if s[0] == '"' || s[0] == '\\' then ['\\', s[0]] else [s[0]]) + Escape(s[1..])
  }

  /** Reads a string literal body up to its closing quote; gives the text and what follows. */
  function ParseStringBody(s: string): (r: Option<(string, string)>)
    ensures r.Some? ==> |r.value.1| < |s|
    decreases |s|
  {
    if s == [] then None
    else if s[0] == '"' then Some(([], s[1..]))
    else if s[0] == '\\' then
      if |s| < 2 then None
      else
        match ParseStringBody(s[2..])
        case None => None
        case Some((t, rest)) => Some(([s[1]] + t, rest))
    else
      match ParseStringBody(s[1..])
      case None => None
      case Some((t, rest)) => Some(([s[0]] + t, rest))
  }

  lemma {:induction false} ParseEscaped(s: string, rest: string)
    ensures ParseStringBody(Escape(s) + "\"" + rest) == Some((s, rest))
    decreases |s|
  {
    if s == [] {
      assert Escape(s) + "\"" + rest == "\"" + rest;
    } else {
      var head := if s[0] == '"' || s[0] == '\\' then ['\\', s[0]] else [s[0]];
      var tail := Escape(s[1..]) + "\"" + rest;
      assert Escape(s) + "\"" + rest == head + tail;
      ParseEscaped(s[1..], rest);
      if |head| == 2 {
        assert (head + tail)[2..] == tail;
      } else {
        assert (head + tail)[1..] == tail;
      }
      assert [s[0]] + s[1..] == s;
    }
  }

  // ---------------------------------------------------------------------------------------------
  // Values, members, objects

  function EncodeString(s: string): string {
    "\"" + Escape(s) + "\""
  }

  function EncodeValue(v: Value): (e: string)
    ensures e != [] && e[0] != ',' && e[0] != '}'
  {
    match v
    case Str(s) => EncodeString(s)
    case Num(n) => IntToString(n)
    case Null => "null"
  }

  function ParseValue(s: string): (r: Option<(Value, string)>)
    ensures r.Some? ==> |r.value.1| < |s|
  {
    if s != [] && s[0] == '"' then
      match ParseStringBody(s[1..])
      case None => None
      case Some((t, rest)) => Some((Str(t), rest))
    else if |s| >= 4 && s[..4] == "null" then Some((Null, s[4..]))
    else
      match ParseInt(s)
      case None => None
      case Some((n, rest)) => Some((Num(n), rest))
  }

  lemma ParseEncodedNumber(n: int, rest: string)
    requires NoDigitFirst(rest)
    ensures ParseValue(IntToString(n) + rest) == Some((Num(n), rest))
  {
    var e := IntToString(n) + rest;
    assert e[0] == IntToString(n)[0];
    assert e != [] && e[0] != '"';
    assert |e| >= 4 ==> e[..4][0] == e[0];
    assert !(|e| >= 4 && e[..4] == "null");
    IntToStringRoundTrip(n, rest);
  }

  lemma ParseEncodedString(t: string, rest: string)
    ensures ParseValue(EncodeString(t) + rest) == Some((Str(t), rest))
  {
    var e := EncodeString(t) + rest;
    assert e == "\"" + (Escape(t) + "\"" + rest);
    assert e[0] == '"' && e[1..] == Escape(t) + "\"" + rest;
    ParseEscaped(t, rest);
  }

  lemma ParseEncodedValue(v: Value, rest: string)
    requires NoDigitFirst(rest)
    ensures ParseValue(EncodeValue(v) + rest) == Some((v, rest))
  {
    match v
    case Str(t) =>
      ParseEncodedString(t, rest);
    case Num(n) =>
      ParseEncodedNumber(n, rest);
    case Null =>
      var e := EncodeValue(v) + rest;
      assert e[..4] == "null";
      assert e[4..] == rest;
  }

  function EncodeMember(m: Member): (e: string)
    ensures e != [] && e[0] == '"'
  {
    EncodeString(m.0) + ":" + EncodeValue(m.1)
  }

  function EncodeMembers(ms: seq<Member>): (e: string)
    ensures ms != [] ==> e != [] && e[0] == '"'
    decreases |ms|
  {
    if ms == [] then ""
    else if |ms| == 1 then EncodeMember(ms[0])
    else EncodeMember(ms[0]) + "," + EncodeMembers(ms[1..])
  }

  /** `JSON.stringify` of a flat object, members in the given order. */
  function Encode(ms: seq<Member>): string {
    "{" + EncodeMembers(ms) + "}"
  }

  function ParseMember(s: string): (r: Option<(Member, string)>)
    ensures r.Some? ==> |r.value.1| < |s|
  {
    if s == [] || s[0] != '"' then None
    else
      match ParseStringBody(s[1..])
      case None => None
      case Some((key, rest)) =>
        if rest == [] || rest[0] != ':' then None
        else
          match ParseValue(rest[1..])
          case None => None
          case Some((v, rest')) => Some(((key, v), rest'))
  }

  /** Reads `member ("," member)* "}"`. */
  function ParseMembers(s: string): (r: Option<(seq<Member>, string)>)
    ensures r.Some? ==> |r.value.1| < |s|
    decreases |s|
  {
    match ParseMember(s)
    case None => None
    case Some((m, rest)) =>
      if rest != [] && rest[0] == '}' then Some(([m], rest[1..]))
      else if rest != [] && rest[0] == ',' then
        match ParseMembers(rest[1..])
        case None => None
        case Some((ms, rest')) => Some(([m] + ms, rest'))
      else None
  }

  /** `JSON.parse` of a flat object; `None` stands for the SyntaxError it throws on other text. */
  function Decode(s: string): (r: Option<seq<Member>>)
    ensures r.Some? ==> s != [] && s[0] == '{'
  {
    if s == "{}" then Some([])
    else if s != [] && s[0] == '{' then
      match ParseMembers(s[1..])
      case Some((ms, rest)) => if rest == [] then Some(ms) else None
      case None => None
    else None
  }

  lemma ParseEncodedMember(m: Member, rest: string)
    requires NoDigitFirst(rest)
    ensures ParseMember(EncodeMember(m) + rest) == Some((m, rest))
  {
    var s := EncodeMember(m) + rest;
    var tail := ":" + (EncodeValue(m.1) + rest);
    RegroupMember(Escape(m.0), EncodeValue(m.1), rest);
    Head("\"", Escape(m.0) + "\"" + tail);
    Head(":", EncodeValue(m.1) + rest);
    ParseEscaped(m.0, tail);
    ParseEncodedValue(m.1, rest);
    ParseMemberStep(s, m.0, tail, m.1, rest);
  }

  /** How the text of a member splits: the opening quote, then the escaped key and the
      closing quote, then the colon and the value. */
  lemma RegroupMember(e: string, v: string, r: string)
    ensures "\"" + e + "\"" + ":" + v + r == "\"" + (e + "\"" + (":" + (v + r)))
  {
  }

  lemma Head(c: string, x: string)
    requires |c| == 1
    ensures (c + x)[0] == c[0] && (c + x)[1..] == x
  {
  }

  lemma ParseMemberStep(s: string, key: string, tail: string, v: Value, rest: string)
    requires s != [] && s[0] == '"' && ParseStringBody(s[1..]) == Some((key, tail))
    requires tail != [] && tail[0] == ':' && ParseValue(tail[1..]) == Some((v, rest))
    ensures ParseMember(s) == Some(((key, v), rest))
  {
  }

  lemma {:induction false} ParseEncodedMembers(ms: seq<Member>, rest: string)
    requires ms != []
    ensures ParseMembers(EncodeMembers(ms) + "}" + rest) == Some((ms, rest))
    decreases |ms|
  {
    if |ms| == 1 {
      ParseLastMember(ms[0], rest);
      assert [ms[0]] == ms;
    } else {
      ParseEncodedMembers(ms[1..], rest);
      ParseNextMember(ms[0], ms[1..], rest);
      assert [ms[0]] + ms[1..] == ms;
    }
  }

  /** A member followed by the closing brace ends the list. */
  lemma ParseLastMember(m: Member, rest: string)
    ensures ParseMembers(EncodeMember(m) + "}" + rest) == Some(([m], rest))
  {
    var s := EncodeMember(m) + "}" + rest;
    Regroup(EncodeMember(m), "}", rest);
    ParseEncodedMember(m, "}" + rest);
    ParseMembersLast(s, m, rest);
  }

  /** A member followed by a comma is the head of the list the rest reads as. */
  lemma ParseNextMember(m: Member, ms: seq<Member>, rest: string)
    requires ms != []
    requires ParseMembers(EncodeMembers(ms) + "}" + rest) == Some((ms, rest))
    ensures ParseMembers(EncodeMember(m) + "," + EncodeMembers(ms) + "}" + rest) == Some(([m] + ms, rest))
  {
    var tail := EncodeMembers(ms) + "}" + rest;
    var s := EncodeMember(m) + "," + EncodeMembers(ms) + "}" + rest;
    RegroupList(EncodeMember(m), ",", EncodeMembers(ms), "}", rest);
    ParseEncodedMember(m, "," + tail);
    ParseMembersCons(s, m, tail, ms, rest);
  }

  lemma Regroup(a: string, x: string, r: string)
    ensures a + x + r == a + (x + r)
  {
  }

  lemma RegroupList(a: string, x: string, c: string, y: string, r: string)
    ensures a + x + c + y + r == a + (x + (c + y + r))
  {
  }

  lemma ParseMembersLast(s: string, m: Member, rest: string)
    requires ParseMember(s) == Some((m, "}" + rest))
    ensures ParseMembers(s) == Some(([m], rest))
  {
    assert ("}" + rest)[1..] == rest;
  }

  lemma ParseMembersCons(s: string, m: Member, tail: string, ms: seq<Member>, rest: string)
    requires ParseMember(s) == Some((m, "," + tail))
    requires ParseMembers(tail) == Some((ms, rest))
    ensures ParseMembers(s) == Some(([m] + ms, rest))
  {
    assert ("," + tail)[1..] == tail;
  }

  /** What `JSON.stringify` writes, `JSON.parse` reads back unchanged. */
  lemma DecodeEncode(ms: seq<Member>)
    ensures Decode(Encode(ms)) == Some(ms)
  {
    if ms == [] {
      assert Encode(ms) == "{}";
    } else {
      var body := EncodeMembers(ms);
      var s := Encode(ms);
      assert s == "{" + (body + "}");
      assert s[1..] == body + "}" + [];
      assert s[1] == body[0] == '"';
      assert s != "{}";
      ParseEncodedMembers(ms, []);
      assert ParseMembers(s[1..]) == Some((ms, []));
    }
  }
}
