/** The job's extra parameters and the JSON text they are stored as
    (model/job.go MarshallParams and UnmarshallParams).

    The encoder writes what Go's encoding/json writes for the ExtraParams struct:
    the eight keys in declaration order, no white space, integers in decimal,
    and strings with `"` and `\` escaped, newline, carriage return and tab as
    `\n`, `\r`, `\t`, other control characters and the HTML characters `<`, `>`
    and `&` as `\u00XX`, and U+2028 and U+2029 as `\u2028` and `\u2029`. The
    decoder reads that layout back. */
module Params {
  import opened Wrappers
  import opened Text

  /** model/job.go ExtraParams */
  datatype ExtraParams = ExtraParams(
    symmetry: int,
    symmetryAxis: int,
    symmetrySteps: string,
    fit: bool,
    enantiomer: bool,
    mode: string,
    units: string,
    methodName: string
  )

  // ---------------------------------------------------------------------------
  // Strings

  function HexDigit(d: nat): char
    requires d < 16
  {
    if d < 10 then ('0' as int + d) as char else ('a' as int + (d - 10)) as char
  }

  function HexValue(c: char): (r: Option<nat>)
    ensures r.Some? ==> r.value < 16
  {
    if '0' <= c <= '9' then Some(c as int - '0' as int)
    else if 'a' <= c <= 'f' then Some(c as int - 'a' as int + 10)
    else if 'A' <= c <= 'F' then Some(c as int - 'A' as int + 10)
    else None
  }

  /** The value of four hexadecimal digits. */
  function Hex4(h: string): Option<nat>
    requires |h| == 4
  {
    var d0 :- HexValue(h[0]);
    var d1 :- HexValue(h[1]);
    var d2 :- HexValue(h[2]);
    var d3 :- HexValue(h[3]);
    Some(((d0 * 16 + d1) * 16 + d2) * 16 + d3)
  }

  /** Characters written as `\u00XX`. */
  predicate HexEscaped(c: char) {
    (c < ' ' && c != '\n' && c != '\r' && c != '\t') || c == '<' || c == '>' || c == '&'
  }

  /** How the encoder writes one character of a string, as encoding/json does
      before Go 1.22 (from 1.22 on, backspace and form feed are `\b` and `\f`). */
  function EscapeChar(c: char): string {
    if c == '"' then "\\\""
    else if c == '\\' then "\\\\"
    else if c == '\n' then "\\n"
    else if c == '\r' then "\\r"
    else if c == '\t' then "\\t"
    else if HexEscaped(c) then "\\u00" + [HexDigit(c as int / 16), HexDigit(c as int % 16)]
    else if c == '\U{2028}' then "\\u2028"
    else if c == '\U{2029}' then "\\u2029"
    else [c]
  }

  function EscapeAll(s: string): string {
    if s == [] then "" else EscapeChar(s[0]) + EscapeAll(s[1..])
  }

  /** A JSON string literal. */
  function EncodeString(s: string): string {
    "\"" + EscapeAll(s) + "\""
  }

  /** The character of a two-character escape `\e`. */
  function Unescape(e: char): Option<char> {
    if e == '"' || e == '\\' || e == '/' then Some(e)
    else if e == 'b' then Some('\U{0008}')
    else if e == 'f' then Some('\U{000C}')
    else if e == 'n' then Some('\n')
    else if e == 'r' then Some('\r')
    else if e == 't' then Some('\t')
    else None
  }

  function Cons(c: char, r: Option<(string, string)>): Option<(string, string)> {
    match r
    case None => None
    case Some((v, rest)) => Some(([c] + v, rest))
  }

  /** The characters of a string literal up to its closing quote, and the text
      after the quote. Raw control characters and surrogate escapes are refused. */
  function DecodeBody(s: string): Option<(string, string)>
    decreases |s|
  {
    if s == [] then None
    else if s[0] == '"' then Some(([], s[1..]))
    else if s[0] == '\\' then
      if |s| < 2 then None
      else if s[1] == 'u' then
        if |s| < 6 then None
        else
          match Hex4(s[2..6])
          case None => None
          case Some(v) =>
            if 0xD800 <= v < 0xE000 then None
            else Cons(v as char, DecodeBody(s[6..]))
      else
        match Unescape(s[1])
        case None => None
        case Some(c) => Cons(c, DecodeBody(s[2..]))
    else if s[0] < ' ' then None
    else Cons(s[0], DecodeBody(s[1..]))
  }

  function DecodeString(s: string): Option<(string, string)> {
    if s != [] && s[0] == '"' then DecodeBody(s[1..]) else None
  }

  lemma HexEscapeDecodes(c: char, t: string)
    requires HexEscaped(c)
    ensures DecodeBody(EscapeChar(c) + t) == Cons(c, DecodeBody(t))
  {
    var hi, lo := c as int / 16, c as int % 16;
    var e := EscapeChar(c);
    assert e == ['\\', 'u', '0', '0', HexDigit(hi), HexDigit(lo)];
    var s := e + t;
    assert s[2..6] == ['0', '0', HexDigit(hi), HexDigit(lo)];
    assert HexValue(HexDigit(hi)) == Some(hi);
    assert HexValue(HexDigit(lo)) == Some(lo);
    assert Hex4(s[2..6]) == Some(c as int);
    assert (c as int) as char == c;
    assert s[6..] == t;
  }

  lemma LineSeparatorDecodes(c: char, t: string)
    requires c == '\U{2028}' || c == '\U{2029}'
    ensures DecodeBody(EscapeChar(c) + t) == Cons(c, DecodeBody(t))
  {
    var s := EscapeChar(c) + t;
    assert s[2..6] == EscapeChar(c)[2..6];
    assert s[6..] == t;
  }

  /** Every character reads back from its escape. */
  lemma EscapeCharDecodes(c: char, t: string)
    ensures DecodeBody(EscapeChar(c) + t) == Cons(c, DecodeBody(t))
  {
    var s := EscapeChar(c) + t;
    if c == '"' || c == '\\' || c == '\n' || c == '\r' || c == '\t' {
      assert s[2..] == t;
    } else if HexEscaped(c) {
      HexEscapeDecodes(c, t);
    } else if c == '\U{2028}' || c == '\U{2029}' {
      LineSeparatorDecodes(c, t);
    } else {
      assert s[1..] == t;
    }
  }

  lemma {:induction false} EscapeAllDecodes(v: string, rest: string)
    ensures DecodeBody(EscapeAll(v) + "\"" + rest) == Some((v, rest))
  {
    if v == [] {
      assert EscapeAll(v) + "\"" + rest == "\"" + rest;
      assert ("\"" + rest)[1..] == rest;
    } else {
      var t := EscapeAll(v[1..]) + "\"" + rest;
      EscapeAllDecodes(v[1..], rest);
      assert EscapeAll(v) + "\"" + rest == EscapeChar(v[0]) + t;
      EscapeCharDecodes(v[0], t);
      assert [v[0]] + v[1..] == v;
    }
  }

  /** A string literal reads back as the string, leaving the text after it. */
  lemma DecodeEncodeString(v: string, rest: string)
    ensures DecodeString(EncodeString(v) + rest) == Some((v, rest))
  {
    var s := EncodeString(v) + rest;
    assert s[1..] == EscapeAll(v) + "\"" + rest;
    EscapeAllDecodes(v, rest);
  }

  // ---------------------------------------------------------------------------
  // Integers and booleans

  predicate IsDigit(c: char) {
    '0' <= c <= '9'
  }

  /** The longest prefix of decimal digits. */
  function DigitRun(s: string): (r: string)
    ensures |r| <= |s| && r == s[..|r|]
    ensures forall k :: 0 <= k < |r| ==> IsDigit(r[k])
  {
    if s != [] && IsDigit(s[0]) then [s[0]] + DigitRun(s[1..]) else []
  }

  /** The value of a run of decimal digits. */
  function DigitsValue(ds: string): nat
    requires forall k :: 0 <= k < |ds| ==> IsDigit(ds[k])
  {
    if ds == [] then 0
    else
      var init := ds[..|ds| - 1];
      assert forall k :: 0 <= k < |init| ==> init[k] == ds[k];
      assert IsDigit(ds[|ds| - 1]);
      DigitsValue(init) * 10 + (ds[|ds| - 1] as int - '0' as int)
  }

  /** A JSON integer: an optional minus sign and at least one digit. */
  function DecodeInt(s: string): Option<(int, string)> {
    if s != [] && s[0] == '-' then
      var r :- DecodeNat(s[1..]);
      Some((-(r.0 as int), r.1))
    else
      var r :- DecodeNat(s);
      Some((r.0 as int, r.1))
  }

  /** At least one digit, and the text after the digits. */
  function DecodeNat(s: string): Option<(nat, string)> {
    var ds := DigitRun(s);
    if ds == [] then None else Some((DigitsValue(ds), s[|ds|..]))
  }

  lemma {:induction false} DigitsValueOfNat(n: nat)
    ensures DigitsValue(NatToString(n)) == n
  {
    if n >= 10 {
      var s := NatToString(n);
      DigitsValueOfNat(n / 10);
      assert s[..|s| - 1] == NatToString(n / 10);
    }
  }

  lemma {:induction false} DigitRunOf(ds: string, rest: string)
    requires forall k :: 0 <= k < |ds| ==> IsDigit(ds[k])
    requires rest == [] || !IsDigit(rest[0])
    ensures DigitRun(ds + rest) == ds
  {
    if ds != [] {
      assert (ds + rest)[1..] == ds[1..] + rest;
      DigitRunOf(ds[1..], rest);
    } else {
      assert ds + rest == rest;
    }
  }

  /** A run of digits reads back as its value, leaving the text after it. */
  lemma DecodeNatOf(ds: string, rest: string)
    requires ds != [] && forall k :: 0 <= k < |ds| ==> IsDigit(ds[k])
    requires rest == [] || !IsDigit(rest[0])
    ensures DecodeNat(ds + rest) == Some((DigitsValue(ds), rest))
  {
    DigitRunOf(ds, rest);
    assert (ds + rest)[|ds|..] == rest;
  }

  /** A decimal integer reads back, leaving the text after it. */
  lemma DecodeEncodeInt(i: int, rest: string)
    requires rest == [] || !IsDigit(rest[0])
    ensures DecodeInt(IntToString(i) + rest) == Some((i, rest))
  {
    var n: nat := if i < 0 then -i else i;
    DigitsValueOfNat(n);
    IntText(i, rest);
    if i < 0 {
      DecodeNegative(NatToString(n), rest);
    } else {
      DecodeUnsigned(NatToString(n), rest);
    }
  }

  /** The text of an integer: a minus sign for a negative one, then the digits
      of its magnitude. */
  lemma IntText(i: int, rest: string)
    ensures var ds := NatToString(if i < 0 then -i else i);
      IntToString(i) + rest == if i < 0 then "-" + (ds + rest) else ds + rest
  {
  }

  /** A run of digits without a sign reads back as its value. */
  lemma DecodeUnsigned(ds: string, rest: string)
    requires ds != [] && forall k :: 0 <= k < |ds| ==> IsDigit(ds[k])
    requires rest == [] || !IsDigit(rest[0])
    ensures DecodeInt(ds + rest) == Some((DigitsValue(ds) as int, rest))
  {
    DecodeNatOf(ds, rest);
    assert (ds + rest)[0] == ds[0];
  }

  /** A minus sign and a run of digits read back as the negated value. */
  lemma DecodeNegative(ds: string, rest: string)
    requires ds != [] && forall k :: 0 <= k < |ds| ==> IsDigit(ds[k])
    requires rest == [] || !IsDigit(rest[0])
    ensures DecodeInt("-" + (ds + rest)) == Some((-(DigitsValue(ds) as int), rest))
  {
    DecodeNatOf(ds, rest);
    DecodeIntMinus(ds + rest);
  }

  /** A minus sign negates the number after it. */
  lemma DecodeIntMinus(t: string)
    ensures DecodeInt("-" + t) == match DecodeNat(t)
                                  case None => None
                                  case Some(r) => Some((-(r.0 as int), r.1))
  {
    assert ("-" + t)[1..] == t;
  }

  function EncodeBool(b: bool): string {
    if b then "true" else "false"
  }

  function DecodeBool(s: string): Option<(bool, string)> {
    if "true" <= s then Some((true, s[4..]))
    else if "false" <= s then Some((false, s[5..]))
    else None
  }

  lemma DecodeEncodeBool(b: bool, rest: string)
    ensures DecodeBool(EncodeBool(b) + rest) == Some((b, rest))
  {
    var s := EncodeBool(b) + rest;
    if b {
      assert "true" <= s;
      assert s[4..] == rest;
    } else {
      assert !("true" <= s) by { assert s[0] == 'f'; }
      assert "false" <= s;
      assert s[5..] == rest;
    }
  }

  /** The text after a literal that `s` starts with. */
  function Expect(lit: string, s: string): Option<string> {
    if lit <= s then Some(s[|lit|..]) else None
  }

  lemma ExpectLit(lit: string, rest: string)
    ensures Expect(lit, lit + rest) == Some(rest)
  {
    assert lit <= lit + rest;
    assert (lit + rest)[|lit|..] == rest;
  }

  // ---------------------------------------------------------------------------
  // The parameter object

  datatype Kind = IntKind | StringKind | BoolKind

  /** One member value of the object. */
  datatype Value = IntValue(i: int) | StringValue(s: string) | BoolValue(b: bool)

  function KindOf(v: Value): Kind {
    match v
    case IntValue(_) => IntKind
    case StringValue(_) => StringKind
    case BoolValue(_) => BoolKind
  }

  /** The JSON keys of ExtraParams, in declaration order, with their kinds. */
  const Members: seq<(string, Kind)> := [
    ("ncs", IntKind), ("ncs_axis", IntKind), ("ncs_steps", StringKind),
    ("fit", BoolKind), ("enantiomer", BoolKind), ("mode", StringKind),
    ("units", StringKind), ("method", StringKind)
  ]

  /** The member values of the parameters, in the order of Members. */
  function ValuesOf(p: ExtraParams): (vs: seq<Value>)
    ensures |vs| == |Members| && forall k :: 0 <= k < |vs| ==> KindOf(vs[k]) == Members[k].1
  {
    [IntValue(p.symmetry), IntValue(p.symmetryAxis), StringValue(p.symmetrySteps),
     BoolValue(p.fit), BoolValue(p.enantiomer), StringValue(p.mode),
     StringValue(p.units), StringValue(p.methodName)]
  }

  /** The parameters with the given member values, when they have the right kinds. */
  function ParamsOf(vs: seq<Value>): Option<ExtraParams> {
    if |vs| == 8 && vs[0].IntValue? && vs[1].IntValue? && vs[2].StringValue?
       && vs[3].BoolValue? && vs[4].BoolValue? && vs[5].StringValue?
       && vs[6].StringValue? && vs[7].StringValue?
    then Some(ExtraParams(vs[0].i, vs[1].i, vs[2].s, vs[3].b, vs[4].b, vs[5].s, vs[6].s, vs[7].s))
    else None
  }

  lemma ParamsOfValues(p: ExtraParams)
    ensures ParamsOf(ValuesOf(p)) == Some(p)
  {
  }

  function EncodeValue(v: Value): string {
    match v
    case IntValue(i) => IntToString(i)
    case StringValue(s) => EncodeString(s)
    case BoolValue(b) => EncodeBool(b)
  }

  function DecodeValue(k: Kind, s: string): Option<(Value, string)> {
    match k
    case IntKind =>
      var r :- DecodeInt(s);
      Some((IntValue(r.0), r.1))
    case StringKind =>
      var r :- DecodeString(s);
      Some((StringValue(r.0), r.1))
    case BoolKind =>
      var r :- DecodeBool(s);
      Some((BoolValue(r.0), r.1))
  }

  lemma DecodeEncodeValue(v: Value, rest: string)
    requires rest == [] || !IsDigit(rest[0])
    ensures DecodeValue(KindOf(v), EncodeValue(v) + rest) == Some((v, rest))
  {
    match v
    case IntValue(i) => DecodeEncodeInt(i, rest);
    case StringValue(s) => DecodeEncodeString(s, rest);
    case BoolValue(b) => DecodeEncodeBool(b, rest);
  }

  /** The `"key":value` members, separated by commas. */
  function EncodeMembers(members: seq<(string, Kind)>, vs: seq<Value>): string
    requires |members| == |vs|
  {
    if members == [] then ""
    else
      EncodeString(members[0].0) + ":" + EncodeValue(vs[0])
      + (if |members| > 1 then "," else "") + EncodeMembers(members[1..], vs[1..])
  }

  /** Reads the members EncodeMembers writes for the given keys and kinds. */
  function DecodeMembers(members: seq<(string, Kind)>, s: string): Option<(seq<Value>, string)>
    decreases |members|
  {
    if members == [] then Some(([], s))
    else
      var s1 :- Expect(EncodeString(members[0].0) + ":", s);
      var r2 :- DecodeValue(members[0].1, s1);
      var s3 :- if |members| > 1 then Expect(",", r2.1) else Some(r2.1);
      var r4 :- DecodeMembers(members[1..], s3);
      Some(([r2.0] + r4.0, r4.1))
  }

  /** One member read, then the rest. */
  lemma DecodeMembersStep(members: seq<(string, Kind)>, s: string, s1: string, v: Value, s2: string,
                          s3: string, vs: seq<Value>, rest: string)
    requires members != []
    requires Expect(EncodeString(members[0].0) + ":", s) == Some(s1)
    requires DecodeValue(members[0].1, s1) == Some((v, s2))
    requires (if |members| > 1 then Expect(",", s2) else Some(s2)) == Some(s3)
    requires DecodeMembers(members[1..], s3) == Some((vs, rest))
    ensures DecodeMembers(members, s) == Some(([v] + vs, rest))
  {
  }

  /** The first member of an encoding reads back, leaving the separator and the
      remaining members. */
  lemma DecodeFirstMember(members: seq<(string, Kind)>, vs: seq<Value>, rest: string)
    requires |members| == |vs| && members != [] && KindOf(vs[0]) == members[0].1
    requires rest == [] || !IsDigit(rest[0])
    ensures var tail := EncodeMembers(members[1..], vs[1..]) + rest;
      var afterValue := (if |members| > 1 then "," else "") + tail;
      var s1 := EncodeValue(vs[0]) + afterValue;
      && Expect(EncodeString(members[0].0) + ":", EncodeMembers(members, vs) + rest) == Some(s1)
      && DecodeValue(members[0].1, s1) == Some((vs[0], afterValue))
      && (if |members| > 1 then Expect(",", afterValue) else Some(afterValue)) == Some(tail)
  {
    var tail := EncodeMembers(members[1..], vs[1..]) + rest;
    var afterValue := (if |members| > 1 then "," else "") + tail;
    FirstMemberKey(members, vs, rest);
    FirstMemberSeparator(members, vs, rest);
    DecodeEncodeValue(vs[0], afterValue);
  }

  /** The key of the first member is where an encoding starts. */
  lemma FirstMemberKey(members: seq<(string, Kind)>, vs: seq<Value>, rest: string)
    requires |members| == |vs| && members != []
    ensures var tail := EncodeMembers(members[1..], vs[1..]) + rest;
      var afterValue := (if |members| > 1 then "," else "") + tail;
      Expect(EncodeString(members[0].0) + ":", EncodeMembers(members, vs) + rest)
        == Some(EncodeValue(vs[0]) + afterValue)
  {
    var key := EncodeString(members[0].0) + ":";
    var value := EncodeValue(vs[0]);
    var sep := if |members| > 1 then "," else "";
    var more := EncodeMembers(members[1..], vs[1..]);
    assert EncodeMembers(members, vs) == key + value + sep + more;
    Reassociate(key, value, sep, more, rest);
    ExpectLit(key, value + (sep + (more + rest)));
  }

  lemma Reassociate<T>(a: seq<T>, b: seq<T>, c: seq<T>, d: seq<T>, e: seq<T>)
    ensures a + b + c + d + e == a + (b + (c + (d + e)))
  {
  }

  /** After the first value comes a comma when more members follow, then the
      rest; what follows the value never starts with a digit. */
  lemma FirstMemberSeparator(members: seq<(string, Kind)>, vs: seq<Value>, rest: string)
    requires |members| == |vs| && members != []
    requires rest == [] || !IsDigit(rest[0])
    ensures var tail := EncodeMembers(members[1..], vs[1..]) + rest;
      var afterValue := (if |members| > 1 then "," else "") + tail;
      && (afterValue == [] || !IsDigit(afterValue[0]))
      && (if |members| > 1 then Expect(",", afterValue) else Some(afterValue)) == Some(tail)
  {
    var tail := EncodeMembers(members[1..], vs[1..]) + rest;
    if |members| > 1 {
      var afterValue := "," + tail;
      assert afterValue[0] == ',';
      ExpectLit(",", tail);
    } else {
      assert EncodeMembers(members[1..], vs[1..]) == "";
      assert tail == rest;
    }
  }

  lemma {:induction false} DecodeEncodeMembers(members: seq<(string, Kind)>, vs: seq<Value>, rest: string)
    requires |members| == |vs| && forall k :: 0 <= k < |vs| ==> KindOf(vs[k]) == members[k].1
    requires rest == [] || !IsDigit(rest[0])
    ensures DecodeMembers(members, EncodeMembers(members, vs) + rest) == Some((vs, rest))
  {
    if members != [] {
      var tail := EncodeMembers(members[1..], vs[1..]) + rest;
      var afterValue := (if |members| > 1 then "," else "") + tail;
      DecodeFirstMember(members, vs, rest);
      DecodeEncodeMembers(members[1..], vs[1..], rest);
      DecodeMembersStep(members, EncodeMembers(members, vs) + rest, EncodeValue(vs[0]) + afterValue,
                        vs[0], afterValue, tail, vs[1..], rest);
      assert [vs[0]] + vs[1..] == vs;
    } else {
      assert EncodeMembers(members, vs) + rest == rest;
    }
  }

  /** The JSON text of the parameters, as json.Marshal writes the struct. */
  function EncodeParams(p: ExtraParams): string {
    "{" + EncodeMembers(Members, ValuesOf(p)) + "}"
  }

  /** Reads the layout EncodeParams writes; None for any other text. */
  function DecodeParams(s: string): Option<ExtraParams> {
    var s1 :- Expect("{", s);
    var r :- DecodeMembers(Members, s1);
    if r.1 == "}" then ParamsOf(r.0) else None
  }

  /** Marshalling then unmarshalling restores all eight parameters. */
  lemma DecodeEncodeParams(p: ExtraParams)
    ensures DecodeParams(EncodeParams(p)) == Some(p)
  {
    var body := EncodeMembers(Members, ValuesOf(p));
    assert EncodeParams(p) == "{" + (body + "}");
    ExpectLit("{", body + "}");
    DecodeEncodeMembers(Members, ValuesOf(p), "}");
    ParamsOfValues(p);
  }
}
