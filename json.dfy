/** `JSON.stringify` on the flat parameter objects that cache keys are built
    from (string, boolean and non-negative integer members), together with a
    reader for that text. The reader exists to prove that the rendering is
    injective: two different parameter objects never print the same text. */
module Json {
  import opened Wrappers
  import opened Strings

  datatype Value = JStr(s: string) | JBool(b: bool) | JNat(n: nat)

  /** An object literal's own enumerable members in insertion order. */
  type Entries = seq<(string, Value)>

  function HexDigit(d: nat): char
    requires d < 16
  {
    "0123456789abcdef"[d]
  }

  predicate IsHex(c: char) {
    '0' <= c <= '9' || 'a' <= c <= 'f'
  }

  function HexValue(c: char): nat
    requires IsHex(c)
  {
    if c <= '9' then (c as int - '0' as int) as nat else (c as int - 'a' as int + 10) as nat
  }

  /** What JSON.stringify writes for one character inside a string literal:
      the two-character escapes for '"', '\', backspace, tab, line feed,
      form feed and carriage return, a lower-case `\u00XX` for the other
      control characters, and the character itself otherwise. */
  function EscapeChar(c: char): string {
    if c == '"' then ['\\', '"']
    else if c == '\\' then ['\\', '\\']
    else if c as int == 8 then ['\\', 'b']
    else if c as int == 9 then ['\\', 't']
    else if c as int == 10 then ['\\', 'n']
    else if c as int == 12 then ['\\', 'f']
    else if c as int == 13 then ['\\', 'r']
    else if c as int < 32 then ['\\', 'u', '0', '0', HexDigit(c as int / 16), HexDigit(c as int % 16)]
    else [c]
  }

  function Escape(s: string): string {
    if |s| == 0 then "" else EscapeChar(s[0]) + Escape(s[1..])
  }

  /** A JSON string literal. */
  function Quote(s: string): string {
    "\"" + Escape(s) + "\""
  }

  function ValueText(v: Value): string {
    match v
    case JStr(s) => Quote(s)
    case JBool(b) => if b then "true" else "false"
    case JNat(n) => NatToString(n)
  }

  function MemberText(e: (string, Value)): string {
    Quote(e.0) + ":" + ValueText(e.1)
  }

  function MembersText(es: Entries): string {
    if |es| == 0 then ""
    else if |es| == 1 then MemberText(es[0])
    else MemberText(es[0]) + "," + MembersText(es[1..])
  }

  /** `JSON.stringify(obj)` for a flat object: no white space, members in order. */
  function Stringify(es: Entries): string {
    "{" + MembersText(es) + "}"
  }

  // ---------------------------------------------------------------- reading back

  function Prepend(c: char, r: Option<(string, string)>): Option<(string, string)> {
    match r
    case None => None
    case Some(p) => Some(([c] + p.0, p.1))
  }

  /** The character a one-letter escape `\x` stands for. */
  function ShortEscape(x: char): Option<char> {
    if x == '"' then Some('"')
    else if x == '\\' then Some('\\')
    else if x == 'b' then Some(8 as char)
    else if x == 't' then Some(9 as char)
    else if x == 'n' then Some(10 as char)
    else if x == 'f' then Some(12 as char)
    else if x == 'r' then Some(13 as char)
    else None
  }

  /** Reads the body of a string literal up to its closing quote; gives the
      decoded content and the text after the quote. */
  function ReadString(t: string): (r: Option<(string, string)>)
    ensures r.Some? ==> |r.value.1| < |t|
    decreases |t|
  {
    if |t| == 0 then None
    else if t[0] == '"' then Some(("", t[1..]))
    else if t[0] == '\\' then
      if |t| < 2 then None
      else if ShortEscape(t[1]).Some? then Prepend(ShortEscape(t[1]).value, ReadString(t[2..]))
      else if |t| >= 6 && t[1] == 'u' && t[2] == '0' && t[3] == '0' && IsHex(t[4]) && IsHex(t[5]) then
        Prepend((16 * HexValue(t[4]) + HexValue(t[5])) as char, ReadString(t[6..]))
      else None
    else Prepend(t[0], ReadString(t[1..]))
  }

  function ReadValue(t: string): (r: Option<(Value, string)>)
    ensures r.Some? ==> |r.value.1| < |t|
  {
    if |t| > 0 && t[0] == '"' then
      match ReadString(t[1..])
      case None => None
      case Some(p) => Some((JStr(p.0), p.1))
    else if StartsWith(t, "true") then Some((JBool(true), t[4..]))
    else if StartsWith(t, "false") then Some((JBool(false), t[5..]))
    else if |t| > 0 && IsDigit(t[0]) then
      var k := DigitRun(t);
      Some((JNat(DigitsValue(t[..k])), t[k..]))
    else None
  }

  /** Reads one member `"key":value`; gives it and the text after it. */
  function ReadMember(t: string): (r: Option<((string, Value), string)>)
    ensures r.Some? ==> |r.value.1| < |t|
  {
    if |t| == 0 || t[0] != '"' then None
    else
      match ReadString(t[1..])
      case None => None
      case Some(kr) =>
        if |kr.1| == 0 || kr.1[0] != ':' then None
        else
          match ReadValue(kr.1[1..])
          case None => None
          case Some(vr) => Some(((kr.0, vr.0), vr.1))
  }

  /** Reads `member (',' member)* '}'` and nothing after it. */
  function ReadMembers(t: string): Option<Entries>
    decreases |t|
  {
    match ReadMember(t)
    case None => None
    case Some(er) =>
      if er.1 == "}" then Some([er.0])
      else if |er.1| > 0 && er.1[0] == ',' then
        match ReadMembers(er.1[1..])
        case None => None
        case Some(es) => Some([er.0] + es)
      else None
  }

  function ReadObject(t: string): Option<Entries> {
    if t == "{}" then Some([])
    else if |t| > 0 && t[0] == '{' then ReadMembers(t[1..])
    else None
  }

  // ---------------------------------------------------------------- round trip

  lemma HexRoundTrip(d: nat)
    requires d < 16
    ensures IsHex(HexDigit(d)) && HexValue(HexDigit(d)) == d
  {
  }

  lemma ReadEscapedChar(c: char, tail: string)
    ensures ReadString(EscapeChar(c) + tail) == Prepend(c, ReadString(tail))
  {
    var t := EscapeChar(c) + tail;
    if c == '"' || c == '\\' || c as int == 8 || c as int == 9 || c as int == 10 || c as int == 12 || c as int == 13 {
      assert t[0] == '\\' && t[2..] == tail;
    } else if c as int < 32 {
      var hi, lo := c as int / 16, c as int % 16;
      HexRoundTrip(hi);
      HexRoundTrip(lo);
      assert t[0] == '\\' && t[1] == 'u' && t[2] == '0' && t[3] == '0';
      assert t[4] == HexDigit(hi) && t[5] == HexDigit(lo);
      assert ShortEscape(t[1]).None?;
      assert t[6..] == tail;
      assert (16 * hi + lo) as char == c;
    } else {
      assert t[0] == c && t[1..] == tail;
    }
  }

  lemma {:induction false} ReadQuotedBody(x: string, rest: string)
    ensures ReadString(Escape(x) + "\"" + rest) == Some((x, rest))
  {
    if |x| == 0 {
      assert Escape(x) + "\"" + rest == "\"" + rest;
    } else {
      var tail := Escape(x[1..]) + "\"" + rest;
      assert Escape(x) + "\"" + rest == EscapeChar(x[0]) + tail;
      ReadEscapedChar(x[0], tail);
      ReadQuotedBody(x[1..], rest);
      assert [x[0]] + x[1..] == x;
    }
  }

  /** What may follow a member's value: a ',' or the closing '}'. */
  predicate Delimited(rest: string) {
    |rest| > 0 && (rest[0] == ',' || rest[0] == '}')
  }

  lemma ReadValueText(v: Value, rest: string)
    requires Delimited(rest)
    ensures ReadValue(ValueText(v) + rest) == Some((v, rest))
  {
    match v
    case JStr(s) => ReadStringValue(s, rest);
    case JBool(b) => ReadBoolValue(b, rest);
    case JNat(n) => ReadNatValue(n, rest);
  }

  lemma ReadStringValue(s: string, rest: string)
    ensures ReadValue(Quote(s) + rest) == Some((JStr(s), rest))
  {
    var t := Quote(s) + rest;
    assert t[0] == '"';
    assert t[1..] == Escape(s) + "\"" + rest;
    ReadQuotedBody(s, rest);
  }

  lemma ReadBoolValue(b: bool, rest: string)
    ensures ReadValue(ValueText(JBool(b)) + rest) == Some((JBool(b), rest))
  {
    var t := ValueText(JBool(b)) + rest;
    if b {
      assert t[..4] == "true";
      assert t[4..] == rest;
    } else {
      assert t[0] == 'f';
      assert t[..5] == "false";
      assert t[5..] == rest;
    }
  }

  lemma ReadNatValue(n: nat, rest: string)
    requires Delimited(rest)
    ensures ReadValue(NatToString(n) + rest) == Some((JNat(n), rest))
  {
    var ds := NatToString(n);
    var t := ds + rest;
    assert t[0] == ds[0];
    assert !StartsWith(t, "true") && !StartsWith(t, "false");
    DigitRunOf(ds, rest);
    assert t[..|ds|] == ds && t[|ds|..] == rest;
    NatToStringRoundTrip(n);
  }

  lemma ReadMemberOf(e: (string, Value), more: string)
    requires Delimited(more)
    ensures ReadMember(MemberText(e) + more) == Some((e, more))
  {
    var vt := ValueText(e.1) + more;
    var r1 := [':'] + vt;
    var body := Escape(e.0) + "\"" + r1;
    var t := MemberText(e) + more;
    assert t == ['"'] + body by {
      assert MemberText(e) == "\"" + Escape(e.0) + "\"" + ":" + ValueText(e.1);
    }
    assert t[0] == '"' && t[1..] == body;
    ReadQuotedBody(e.0, r1);
    assert ReadString(t[1..]) == Some((e.0, r1));
    assert r1[0] == ':' && r1[1..] == vt;
    ReadValueText(e.1, more);
    assert ReadValue(r1[1..]) == Some((e.1, more));
  }

  lemma ReadMembersStep(t: string, e: (string, Value), more: string)
    requires ReadMember(t) == Some((e, more))
    ensures more == "}" ==> ReadMembers(t) == Some([e])
    ensures more != "}" && |more| > 0 && more[0] == ',' && ReadMembers(more[1..]).Some? ==>
      ReadMembers(t) == Some([e] + ReadMembers(more[1..]).value)
  {
  }

  lemma ReadLastMember(e: (string, Value))
    ensures ReadMembers(MemberText(e) + "}") == Some([e])
  {
    ReadMemberOf(e, "}");
    ReadMembersStep(MemberText(e) + "}", e, "}");
  }

  lemma ReadNextMember(e: (string, Value), tail: string, es: Entries)
    requires ReadMembers(tail) == Some(es)
    ensures ReadMembers(MemberText(e) + ("," + tail)) == Some([e] + es)
  {
    var more := "," + tail;
    ReadMemberOf(e, more);
    assert more[1..] == tail;
    ReadMembersStep(MemberText(e) + more, e, more);
  }

  lemma {:induction false} ReadMembersText(es: Entries)
    requires |es| >= 1
    ensures ReadMembers(MembersText(es) + "}") == Some(es)
  {
    if |es| == 1 {
      ReadLastMember(es[0]);
      assert es == [es[0]];
    } else {
      var tail := MembersText(es[1..]) + "}";
      assert MembersText(es) + "}" == MemberText(es[0]) + ("," + tail);
      ReadMembersText(es[1..]);
      ReadNextMember(es[0], tail, es[1..]);
      assert [es[0]] + es[1..] == es;
    }
  }

  /** Reading the text `Stringify` writes gives back the object. */
  lemma StringifyRoundTrip(es: Entries)
    ensures ReadObject(Stringify(es)) == Some(es)
  {
    if |es| == 0 {
      assert Stringify(es) == "{}";
    } else {
      var t := Stringify(es);
      assert t[1..] == MembersText(es) + "}";
      ReadMembersText(es);
      assert MemberText(es[0])[0] == '"';
      assert |t| > 2 && t[1] == '"';
    }
  }

  lemma StringifyInjective(a: Entries, b: Entries)
    requires Stringify(a) == Stringify(b)
    ensures a == b
  {
    StringifyRoundTrip(a);
    StringifyRoundTrip(b);
  }
}
