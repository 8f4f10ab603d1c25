/** The part of `JSON.stringify` / `JSON.parse` the application uses:
    strings, arrays and objects whose leaves are strings (trigger lists and
    match preferences). Serialization is compact, as `JSON.stringify`
    writes it; the parser reads exactly that text back. */
module Json {
  import opened Wrappers

  datatype Json =
    | JString(str: string)
    | JArray(items: seq<Json>)
    | JObject(members: seq<Member>)

  datatype Member = Member(key: string, value: Json)

  /** The escape `JSON.stringify` writes for a character, or the character
      itself. */
  function EscapeChar(c: char): string {
    if c == '"' then "\\\""
    else if c == '\\' then "\\\\"
    else if c == '\n' then "\\n"
    else if c == '\r' then "\\r"
    else if c == '\t' then "\\t"
    else if c == '\U{0008}' then "\\b"
    else if c == '\U{000C}' then "\\f"
    else [c]
  }

  /** The character a two-character escape `\e` stands for. */
  function UnescapeChar(e: char): Option<char> {
    if e == '"' then Some('"')
    else if e == '\\' then Some('\\')
    else if e == '/' then Some('/')
    else if e == 'n' then Some('\n')
    else if e == 'r' then Some('\r')
    else if e == 't' then Some('\t')
    else if e == 'b' then Some('\U{0008}')
    else if e == 'f' then Some('\U{000C}')
    else None
  }

  function Escape(s: string): string {
    if s == [] then [] else EscapeChar(s[0]) + Escape(s[1..])
  }

  function Quote(s: string): string {
    "\"" + Escape(s) + "\""
  }

  function Serialize(v: Json): string
    decreases v, 2
  {
    match v
    case JString(s) => Quote(s)
    case JArray(items) => "[" + SerializeItems(items) + "]"
    case JObject(ms) => "{" + SerializeMembers(ms) + "}"
  }

  function SerializeItems(items: seq<Json>): string
    decreases items, 1
  {
    if items == [] then ""
    else if |items| == 1 then Serialize(items[0])
    else Serialize(items[0]) + "," + SerializeItems(items[1..])
  }

  function SerializeMembers(ms: seq<Member>): string
    decreases ms, 1
  {
    if ms == [] then ""
    else
      var m := ms[0];
      var first := Quote(m.key) + ":" + Serialize(m.value);
      if |ms| == 1 then first else first + "," + SerializeMembers(ms[1..])
  }

  /** Reads the body of a string literal up to its closing quote; returns
      the text and what follows the quote. */
  function ParseStringBody(s: string): (r: Option<(string, string)>)
    ensures r.Some? ==> |r.value.1| < |s|
  {
    if s == [] then None
    else if s[0] == '"' then Some(([], s[1..]))
    else if s[0] == '\\' then
      if |s| < 2 then None
      else match UnescapeChar(s[1])
        case None => None
        case Some(c) =>
          match ParseStringBody(s[2..])
          case None => None
          case Some((t, rest)) => Some(([c] + t, rest))
    else
      match ParseStringBody(s[1..])
      case None => None
      case Some((t, rest)) => Some(([s[0]] + t, rest))
  }

  /** Reads one value from the front of `s`; returns it and the rest. */
  function ParseValue(s: string): (r: Option<(Json, string)>)
    ensures r.Some? ==> |r.value.1| < |s|
    decreases |s|, 1
  {
    if s == [] then None
    else if s[0] == '"' then
      match ParseStringBody(s[1..])
      case None => None
      case Some((t, rest)) => Some((JString(t), rest))
    else if s[0] == '[' then
      if |s| > 1 && s[1] == ']' then Some((JArray([]), s[2..]))
      else
        match ParseItems(s[1..])
        case None => None
        case Some((items, rest)) => Some((JArray(items), rest))
    else if s[0] == '{' then
      if |s| > 1 && s[1] == '}' then Some((JObject([]), s[2..]))
      else
        match ParseMembers(s[1..])
        case None => None
        case Some((ms, rest)) => Some((JObject(ms), rest))
    else None
  }

  /** Reads `v1,v2,...,vn]` (n >= 1) and what follows the bracket. */
  function ParseItems(s: string): (r: Option<(seq<Json>, string)>)
    ensures r.Some? ==> |r.value.1| < |s|
    decreases |s|, 2
  {
    match ParseValue(s)
    case None => None
    case Some((v, rest)) =>
      if rest == [] then None
      else if rest[0] == ']' then Some(([v], rest[1..]))
      else if rest[0] == ',' then
        match ParseItems(rest[1..])
        case None => None
        case Some((vs, rest')) => Some(([v] + vs, rest'))
      else None
  }

  /** Reads one member `"k":v` and what follows it. */
  function ParseMember(s: string): (r: Option<(Member, string)>)
    ensures r.Some? ==> |r.value.1| < |s|
    decreases |s|, 1
  {
    if s == [] || s[0] != '"' then None
    else
      match ParseStringBody(s[1..])
      case None => None
      case Some((k, afterKey)) =>
        if afterKey == [] || afterKey[0] != ':' then None
        else
          match ParseValue(afterKey[1..])
          case None => None
          case Some((v, rest)) => Some((Member(k, v), rest))
  }

  /** Reads `"k1":v1,...,"kn":vn}` (n >= 1) and what follows the brace. */
  function ParseMembers(s: string): (r: Option<(seq<Member>, string)>)
    ensures r.Some? ==> |r.value.1| < |s|
    decreases |s|, 2
  {
    match ParseMember(s)
    case None => None
    case Some((m, rest)) =>
      if rest == [] then None
      else if rest[0] == '}' then Some(([m], rest[1..]))
      else if rest[0] == ',' then
        match ParseMembers(rest[1..])
        case None => None
        case Some((ms, rest')) => Some(([m] + ms, rest'))
      else None
  }

  /** `JSON.parse(text)`: one value and nothing after it. */
  function Parse(text: string): Option<Json> {
    match ParseValue(text)
    case Some((v, rest)) => if rest == [] then Some(v) else None
    case None => None
  }

  lemma {:induction false} StringBodyRoundTrip(s: string, rest: string)
    ensures ParseStringBody(Escape(s) + "\"" + rest) == Some((s, rest))
  {
    if s == [] {
      assert Escape(s) + "\"" + rest == "\"" + rest;
    } else {
      var tail := Escape(s[1..]) + "\"" + rest;
      StringBodyRoundTrip(s[1..], rest);
      EscapedHead(s, rest);
      assert [s[0]] + s[1..] == s;
    }
  }

  /** The escaped text of a non-empty string, then a quote: the escape of
      its first character followed by the escaped rest. */
  lemma EscapedHead(s: string, rest: string)
    requires s != []
    ensures var whole, tail := Escape(s) + "\"" + rest, Escape(s[1..]) + "\"" + rest;
      var e := EscapeChar(s[0]);
      if |e| == 2 then
        |whole| > 2 && whole[0] == '\\' && UnescapeChar(whole[1]) == Some(s[0]) && whole[2..] == tail
      else
        |whole| > 1 && whole[0] == s[0] && s[0] != '"' && s[0] != '\\' && whole[1..] == tail
  {
    var tail := Escape(s[1..]) + "\"" + rest;
    var e := EscapeChar(s[0]);
    EscapeSplit(s, rest);
    EscapeCharUndone(s[0]);
    HeadSplit(e, tail);
  }

  lemma EscapeSplit(s: string, rest: string)
    requires s != []
    ensures Escape(s) + "\"" + rest == EscapeChar(s[0]) + (Escape(s[1..]) + "\"" + rest)
  {
  }

  lemma HeadSplit(e: string, tail: string)
    requires 1 <= |e| <= 2
    ensures (e + tail)[0] == e[0]
    ensures |e| == 2 ==> (e + tail)[1] == e[1] && (e + tail)[2..] == tail
    ensures |e| == 1 ==> (e + tail)[1..] == tail
  {
  }

  /** A character's escape is a backslash and a letter that unescapes to
      it, or the character itself when it needs no escape. */
  lemma EscapeCharUndone(c: char)
    ensures var e := EscapeChar(c);
      if |e| == 2 then e[0] == '\\' && UnescapeChar(e[1]) == Some(c)
      else e == [c] && c != '"' && c != '\\'
  {
    if c == '"' {
    } else if c == '\\' {
    } else if c == '\n' {
    } else if c == '\r' {
    } else if c == '\t' {
    } else if c == '\U{0008}' {
    } else if c == '\U{000C}' {
    }
  }

  lemma {:induction false} ValueRoundTrip(v: Json, rest: string)
    ensures ParseValue(Serialize(v) + rest) == Some((v, rest))
    decreases v, 2
  {
    match v
    case JString(s) =>
      StringBodyRoundTrip(s, rest);
      StringStep(s, rest);
    case JArray(items) =>
      if items == [] {
        EmptyArrayStep(rest);
      } else {
        ItemsRoundTrip(items, rest);
        ArrayStep(items, rest);
      }
    case JObject(ms) =>
      if ms == [] {
        EmptyObjectStep(rest);
      } else {
        MembersRoundTrip(ms, rest);
        FirstOfMembers(ms);
        ObjectStep(SerializeMembers(ms), ms, rest);
      }
  }

  lemma StringStep(s: string, rest: string)
    requires ParseStringBody(Escape(s) + "\"" + rest) == Some((s, rest))
    ensures ParseValue(Serialize(JString(s)) + rest) == Some((JString(s), rest))
  {
    QuotedText(s, rest);
    OpenQuote(Escape(s) + "\"" + rest, s, rest);
  }

  lemma QuotedText(s: string, rest: string)
    ensures Serialize(JString(s)) + rest == "\"" + (Escape(s) + "\"" + rest)
  {
  }

  lemma OpenQuote(body: string, s: string, rest: string)
    requires ParseStringBody(body) == Some((s, rest))
    ensures ParseValue("\"" + body) == Some((JString(s), rest))
  {
    assert ("\"" + body)[1..] == body;
  }

  lemma EmptyArrayStep(rest: string)
    ensures ParseValue(Serialize(JArray([])) + rest) == Some((JArray([]), rest))
  {
    assert SerializeItems([]) == "";
    var t := Serialize(JArray([])) + rest;
    assert t == "[]" + rest;
    assert t[2..] == rest;
  }

  lemma EmptyObjectStep(rest: string)
    ensures ParseValue(Serialize(JObject([])) + rest) == Some((JObject([]), rest))
  {
    assert SerializeMembers([]) == "";
    var t := Serialize(JObject([])) + rest;
    assert t == "{}" + rest;
    assert t[2..] == rest;
  }

  lemma ArrayStep(items: seq<Json>, rest: string)
    requires items != []
    requires ParseItems(SerializeItems(items) + "]" + rest) == Some((items, rest))
    ensures ParseValue(Serialize(JArray(items)) + rest) == Some((JArray(items), rest))
  {
    FirstOfItems(items);
    FirstOfSerialized(items[0]);
    Enclosed('[', SerializeItems(items), ']', rest);
    OpenBracket("[" + SerializeItems(items) + "]" + rest, items, rest);
  }

  lemma OpenBracket(t: string, items: seq<Json>, rest: string)
    requires |t| > 1 && t[0] == '[' && t[1] != ']'
    requires ParseItems(t[1..]) == Some((items, rest))
    ensures ParseValue(t) == Some((JArray(items), rest))
  {
  }

  lemma ObjectStep(body: string, ms: seq<Member>, rest: string)
    requires |body| > 0 && body[0] != '}'
    requires ParseMembers(body + "}" + rest) == Some((ms, rest))
    ensures ParseValue("{" + body + "}" + rest) == Some((JObject(ms), rest))
  {
    Enclosed('{', body, '}', rest);
    OpenBrace("{" + body + "}" + rest, ms, rest);
  }

  /** The text `open body close rest` starts with `open` and the first
      character of `body`, and after `open` reads `body close rest`. */
  lemma Enclosed(open: char, body: string, close: char, rest: string)
    requires |body| > 0
    ensures var t := [open] + body + [close] + rest;
      |t| > 1 && t[0] == open && t[1] == body[0] && t[1..] == body + [close] + rest
  {
    var t := [open] + body + [close] + rest;
    assert t == [open] + (body + [close] + rest);
  }

  lemma Regroup(a: string, b: string, c: string, d: string, e: string)
    ensures a + b + c + d + e == a + (b + (c + d + e))
  {
  }

  lemma OpenBrace(t: string, ms: seq<Member>, rest: string)
    requires |t| > 1 && t[0] == '{' && t[1] != '}'
    requires ParseMembers(t[1..]) == Some((ms, rest))
    ensures ParseValue(t) == Some((JObject(ms), rest))
  {
  }

  lemma FirstOfMembers(ms: seq<Member>)
    requires ms != []
    ensures |SerializeMembers(ms)| > 0 && SerializeMembers(ms)[0] == '"'
  {
    var m := ms[0];
    assert SerializeMembers(ms) == "\"" + (Escape(m.key) + "\"" + ":" + Serialize(m.value) +
      (if |ms| == 1 then "" else "," + SerializeMembers(ms[1..])));
  }

  /** Every serialized value starts with a quote or an opening bracket. */
  lemma FirstOfSerialized(v: Json)
    ensures |Serialize(v)| > 0
    ensures Serialize(v)[0] in {'"', '[', '{'}
  {
  }

  lemma FirstOfItems(items: seq<Json>)
    requires items != []
    ensures |SerializeItems(items)| > 0 && SerializeItems(items)[0] == Serialize(items[0])[0]
  {
    FirstOfSerialized(items[0]);
  }

  lemma {:induction false} ItemsRoundTrip(items: seq<Json>, rest: string)
    requires items != []
    ensures ParseItems(SerializeItems(items) + "]" + rest) == Some((items, rest))
    decreases items, 1
  {
    var head := Serialize(items[0]);
    if |items| == 1 {
      assert SerializeItems(items) + "]" + rest == head + ("]" + rest);
      ValueRoundTrip(items[0], "]" + rest);
      assert ("]" + rest)[0] == ']' && ("]" + rest)[1..] == rest;
      assert [items[0]] == items;
    } else {
      var tail := SerializeItems(items[1..]) + "]" + rest;
      assert SerializeItems(items) + "]" + rest == head + ("," + tail);
      ValueRoundTrip(items[0], "," + tail);
      assert ("," + tail)[1..] == tail;
      ItemsRoundTrip(items[1..], rest);
      assert [items[0]] + items[1..] == items;
    }
  }

  lemma {:induction false} MembersRoundTrip(ms: seq<Member>, rest: string)
    requires ms != []
    ensures ParseMembers(SerializeMembers(ms) + "}" + rest) == Some((ms, rest))
    decreases ms, 1
  {
    var m := ms[0];
    var vt := Serialize(m.value);
    var after := if |ms| == 1 then "}" + rest else "," + (SerializeMembers(ms[1..]) + "}" + rest);
    StringBodyRoundTrip(m.key, ":" + (vt + after));
    ValueRoundTrip(m.value, after);
    MembersText(ms, rest);
    if |ms| == 1 {
      MemberStep(m, Escape(m.key), vt, after, [], rest);
      assert [m] + [] == ms;
    } else {
      MembersRoundTrip(ms[1..], rest);
      MemberStep(m, Escape(m.key), vt, after, ms[1..], rest);
      assert [m] + ms[1..] == ms;
    }
  }

  /** The serialized members followed by `}`: the first member, then `}`
      or a comma and the serialized remaining members. */
  lemma MembersText(ms: seq<Member>, rest: string)
    requires ms != []
    ensures var m := ms[0];
      var after := if |ms| == 1 then "}" + rest else "," + (SerializeMembers(ms[1..]) + "}" + rest);
      SerializeMembers(ms) + "}" + rest == "\"" + Escape(m.key) + "\"" + ":" + Serialize(m.value) + after
    ensures |ms| > 1 ==> ("," + (SerializeMembers(ms[1..]) + "}" + rest))[1..] == SerializeMembers(ms[1..]) + "}" + rest
  {
    var m := ms[0];
    var ek, vt := Escape(m.key), Serialize(m.value);
    var first := Quote(m.key) + ":" + vt;
    assert first == "\"" + ek + "\"" + ":" + vt;
    if |ms| == 1 {
      assert SerializeMembers(ms) == first;
      assert first + "}" + rest == first + ("}" + rest);
    } else {
      var more := SerializeMembers(ms[1..]);
      var after := "," + (more + "}" + rest);
      assert SerializeMembers(ms) == first + "," + more;
      Regroup(first, ",", more, "}", rest);
      assert SerializeMembers(ms) + "}" + rest == first + after;
      assert after[1..] == more + "}" + rest;
    }
  }

  /** Reading one member `"key":value` (key escaped as `ek`, value written
      as `vt`) followed by `}` or by `,` and the remaining members. */
  lemma MemberStep(m: Member, ek: string, vt: string, after: string, more: seq<Member>, rest: string)
    requires ParseStringBody(ek + "\"" + (":" + (vt + after))) == Some((m.key, ":" + (vt + after)))
    requires ParseValue(vt + after) == Some((m.value, after))
    requires more == [] ==> after == "}" + rest
    requires more != [] ==> (|after| > 0 && after[0] == ',' && ParseMembers(after[1..]) == Some((more, rest)))
    ensures ParseMembers("\"" + ek + "\"" + ":" + vt + after) == Some(([m] + more, rest))
  {
    OneMember(m, ek, vt, after);
    MembersStep("\"" + ek + "\"" + ":" + vt + after, m, after, more, rest);
  }

  lemma MembersStep(t: string, m: Member, after: string, more: seq<Member>, rest: string)
    requires ParseMember(t) == Some((m, after))
    requires more == [] ==> after == "}" + rest
    requires more != [] ==> (|after| > 0 && after[0] == ',' && ParseMembers(after[1..]) == Some((more, rest)))
    ensures ParseMembers(t) == Some(([m] + more, rest))
  {
    if more == [] {
      assert after[0] == '}' && after[1..] == rest;
      assert [m] + more == [m];
    }
  }

  lemma OneMember(m: Member, ek: string, vt: string, after: string)
    requires ParseStringBody(ek + "\"" + (":" + (vt + after))) == Some((m.key, ":" + (vt + after)))
    requires ParseValue(vt + after) == Some((m.value, after))
    ensures ParseMember("\"" + ek + "\"" + ":" + vt + after) == Some((m, after))
  {
    MemberText(ek, vt, after);
    var t := "\"" + ek + "\"" + ":" + vt + after;
    var afterKey := ":" + (vt + after);
    assert t[0] == '"' && t[1..] == ek + "\"" + afterKey;
    assert afterKey[0] == ':' && afterKey[1..] == vt + after;
  }

  lemma MemberText(ek: string, vt: string, after: string)
    ensures var t := "\"" + ek + "\"" + ":" + vt + after;
      |t| > 0 && t[0] == '"' && t[1..] == ek + "\"" + (":" + (vt + after))
    ensures var a := ":" + (vt + after);
      |a| > 0 && a[0] == ':' && a[1..] == vt + after
  {
    var t := "\"" + ek + "\"" + ":" + vt + after;
    assert t == "\"" + (ek + "\"" + (":" + (vt + after)));
  }

  /** `JSON.parse(JSON.stringify(v))` gives `v` back. */
  lemma RoundTrip(v: Json)
    ensures Parse(Serialize(v)) == Some(v)
  {
    ValueRoundTrip(v, "");
    assert Serialize(v) + "" == Serialize(v);
  }

  /** The JSON text of a list of strings, as `JSON.stringify(string[])`. */
  function FromStrings(xs: seq<string>): (j: Json)
    ensures j.JArray? && |j.items| == |xs|
  {
    JArray(seq(|xs|, i requires 0 <= i < |xs| => JString(xs[i])))
  }

  /** The strings of an array of strings; None for any other value. */
  function ToStrings(j: Json): Option<seq<string>> {
    if j.JArray? && forall i :: 0 <= i < |j.items| ==> j.items[i].JString?
    then Some(seq(|j.items|, i requires 0 <= i < |j.items| => j.items[i].str))
    else None
  }

  lemma StringsRoundTrip(xs: seq<string>)
    ensures ToStrings(FromStrings(xs)) == Some(xs)
  {
    var j := FromStrings(xs);
    assert forall i :: 0 <= i < |j.items| ==> j.items[i] == JString(xs[i]);
    var back := seq(|j.items|, i requires 0 <= i < |j.items| => j.items[i].str);
    assert back == xs;
  }

  /** A list of strings read back from its JSON text is the same list. */
  lemma StringListRoundTrip(xs: seq<string>)
    ensures Parse(Serialize(FromStrings(xs))) == Some(FromStrings(xs))
    ensures ToStrings(FromStrings(xs)) == Some(xs)
  {
    RoundTrip(FromStrings(xs));
    StringsRoundTrip(xs);
  }
}
