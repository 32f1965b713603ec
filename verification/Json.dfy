/** The part of JSON (RFC 8259) that records use, with a printer in the compact
    form of Go's encoder and an independent parser. */
module Json {
  import opened Base
  import opened Decimal

  datatype Value = Null | Number(n: int) | Array(items: seq<Value>) | Object(members: seq<Member>)
  datatype Member = Member(name: string, value: Value)

  /** Names that need no escaping. */
  predicate Plain(name: string) {
    forall i :: 0 <= i < |name| ==> ' ' <= name[i] <= '~' && name[i] != '"' && name[i] != '\\'
  }

  predicate Printable(v: Value) {
    match v
    case Null => true
    case Number(_) => true
    case Array(items) => forall i :: 0 <= i < |items| ==> Printable(items[i])
    case Object(members) => forall i :: 0 <= i < |members| ==> Plain(members[i].name) && Printable(members[i].value)
  }

  // ----- printing

  /** The text of v, followed by rest. */
  function Print(v: Value, rest: string): string
    decreases v
  {
    match v
    case Null => "null" + rest
    case Number(n) => Numeral(n) + rest
    case Array(items) => "[" + PrintItems(items, "]" + rest)
    case Object(members) => "{" + PrintMembers(members, "}" + rest)
  }

  function PrintItems(items: seq<Value>, rest: string): string
    decreases items
  {
    if items == [] then rest
    else if |items| == 1 then Print(items[0], rest)
    else Print(items[0], "," + PrintItems(items[1..], rest))
  }

  function PrintMember(m: Member, rest: string): string
    decreases m
  {
    "\"" + (m.name + ("\":" + Print(m.value, rest)))
  }

  function PrintMembers(members: seq<Member>, rest: string): string
    decreases members
  {
    if members == [] then rest
    else if |members| == 1 then PrintMember(members[0], rest)
    else PrintMember(members[0], "," + PrintMembers(members[1..], rest))
  }

  /** Texts with commas between them. */
  function Joined(texts: seq<string>): string {
    if texts == [] then ""
    else if |texts| == 1 then texts[0]
    else texts[0] + ("," + Joined(texts[1..]))
  }

  // ----- parsing

  function ParseValue(s: string): (r: Option<(Value, string)>)
    ensures r.Some? ==> |r.value.1| < |s|
    decreases |s|, 0
  {
    if s == [] then None
    else if s[0] == 'n' then
      if "null" <= s then Some((Null, s[4..])) else None
    else if s[0] == '[' then
      if |s| > 1 && s[1] == ']' then Some((Array([]), s[2..]))
      else
        match ParseItems(s[1..])
        case None => None
        case Some((items, rest)) => Some((Array(items), rest))
    else if s[0] == '{' then
      if |s| > 1 && s[1] == '}' then Some((Object([]), s[2..]))
      else
        match ParseMembers(s[1..])
        case None => None
        case Some((members, rest)) => Some((Object(members), rest))
    else
      match ReadInt(s)
      case None => None
      case Some((n, rest)) => Some((Number(n), rest))
  }

  /** One or more values separated by commas and ended by a bracket. */
  function ParseItems(s: string): (r: Option<(seq<Value>, string)>)
    ensures r.Some? ==> |r.value.1| < |s|
    decreases |s|, 1
  {
    match ParseValue(s)
    case None => None
    case Some((v, rest)) =>
      if rest == [] then None
      else if rest[0] == ']' then Some(([v], rest[1..]))
      else if rest[0] != ',' then None
      else
        match ParseItems(rest[1..])
        case None => None
        case Some((vs, rest')) => Some(([v] + vs, rest'))
  }

  /** The characters of s up to the first quotation mark. */
  function NameLength(s: string): (k: nat)
    ensures k <= |s|
  {
    if s == [] || s[0] == '"' then 0 else 1 + NameLength(s[1..])
  }

  function ParseMember(s: string): (r: Option<(Member, string)>)
    ensures r.Some? ==> |r.value.1| < |s|
    decreases |s|, 1
  {
    if s == [] || s[0] != '"' then None
    else
      var k := NameLength(s[1..]);
      if |s| < k + 3 || s[k + 2] != ':' then None
      else
        match ParseValue(s[k + 3..])
        case None => None
        case Some((v, rest)) => Some((Member(s[1..k + 1], v), rest))
  }

  function ParseMembers(s: string): (r: Option<(seq<Member>, string)>)
    ensures r.Some? ==> |r.value.1| < |s|
    decreases |s|, 2
  {
    match ParseMember(s)
    case None => None
    case Some((m, rest)) =>
      if rest == [] then None
      else if rest[0] == '}' then Some(([m], rest[1..]))
      else if rest[0] != ',' then None
      else
        match ParseMembers(rest[1..])
        case None => None
        case Some((ms, rest')) => Some(([m] + ms, rest'))
  }

  // ----- the round trip

  lemma PrintStarts(items: seq<Value>, rest: string)
    requires items != []
    ensures PrintItems(items, rest) != [] && PrintItems(items, rest)[0] != ']'
  {
    if items[0].Number? {
      NumeralChars(items[0].n, 0);
    }
  }

  lemma ParseArray(body: string, items: seq<Value>, rest: string)
    requires body != [] && body[0] != ']' && ParseItems(body) == Some((items, rest))
    ensures ParseValue("[" + body) == Some((Array(items), rest))
  {
    assert ("[" + body)[1..] == body;
  }

  lemma ParseObject(body: string, members: seq<Member>, rest: string)
    requires body != [] && body[0] == '"' && ParseMembers(body) == Some((members, rest))
    ensures ParseValue("{" + body) == Some((Object(members), rest))
  {
    assert ("{" + body)[1..] == body;
  }

  lemma ParseScalar(v: Value, rest: string)
    requires v.Null? || v.Number? || v == Array([]) || v == Object([])
    requires !StartsWithDigit(rest)
    ensures ParseValue(Print(v, rest)) == Some((v, rest))
  {
    match v
    case Null =>
      assert ("null" + rest)[4..] == rest;
    case Number(n) =>
      NumeralReads(n, rest);
      NumeralChars(n, 0);
    case Array(_) =>
      assert ("[" + ("]" + rest))[2..] == rest;
    case Object(_) =>
      assert ("{" + ("}" + rest))[2..] == rest;
  }

  lemma {:induction false} NameLengthOf(name: string, rest: string)
    requires Plain(name)
    requires rest != [] && rest[0] == '"'
    ensures NameLength(name + rest) == |name|
  {
    if name == [] {
      assert name + rest == rest;
    } else {
      NameLengthOf(name[1..], rest);
      assert (name + rest)[1..] == name[1..] + rest;
    }
  }

  /** The parser undoes the printer and stops where the value ends. */
  lemma {:induction false} ParsePrint(v: Value, rest: string)
    requires Printable(v) && !StartsWithDigit(rest)
    ensures ParseValue(Print(v, rest)) == Some((v, rest))
    decreases v, 0
  {
    if v.Array? && v.items != [] {
      ParsePrintItems(v.items, rest);
      PrintStarts(v.items, "]" + rest);
      ParseArray(PrintItems(v.items, "]" + rest), v.items, rest);
    } else if v.Object? && v.members != [] {
      ParsePrintMembers(v.members, rest);
      ParseObject(PrintMembers(v.members, "}" + rest), v.members, rest);
    } else {
      ParseScalar(v, rest);
    }
  }

  lemma {:induction false} ParsePrintItems(items: seq<Value>, rest: string)
    requires items != [] && forall i :: 0 <= i < |items| ==> Printable(items[i])
    ensures ParseItems(PrintItems(items, "]" + rest)) == Some((items, rest))
    decreases items, 1
  {
    if |items| == 1 {
      ParsePrint(items[0], "]" + rest);
      assert ("]" + rest)[1..] == rest && [items[0]] == items;
    } else {
      ParsePrintItems(items[1..], rest);
      var tail := PrintItems(items[1..], "]" + rest);
      ParsePrint(items[0], "," + tail);
      assert ("," + tail)[1..] == tail;
      assert [items[0]] + items[1..] == items;
    }
  }

  lemma {:induction false} ParsePrintMember(m: Member, rest: string)
    requires Plain(m.name) && Printable(m.value) && !StartsWithDigit(rest)
    ensures ParseMember(PrintMember(m, rest)) == Some((m, rest))
    decreases m, 1
  {
    var s := PrintMember(m, rest);
    var after := "\":" + Print(m.value, rest);
    NameLengthOf(m.name, after);
    assert s[1..] == m.name + after;
    var k := |m.name|;
    assert s[1..k + 1] == m.name && s[k + 2] == ':' && s[k + 3..] == Print(m.value, rest);
    ParsePrint(m.value, rest);
  }

  lemma ParsePrintedMembers(members: seq<Member>, tail: string, rest: string)
    requires members != [] && Plain(members[0].name) && Printable(members[0].value)
    requires ParseMembers(tail) == Some((members[1..], rest))
    ensures ParseMembers(PrintMember(members[0], "," + tail)) == Some((members, rest))
    decreases members, 1
  {
    ParsePrintMember(members[0], "," + tail);
    assert ("," + tail)[1..] == tail;
    assert [members[0]] + members[1..] == members;
  }

  lemma {:induction false} ParsePrintMembers(members: seq<Member>, rest: string)
    requires members != []
    requires forall i :: 0 <= i < |members| ==> Plain(members[i].name) && Printable(members[i].value)
    ensures ParseMembers(PrintMembers(members, "}" + rest)) == Some((members, rest))
    decreases members, 2
  {
    if |members| == 1 {
      ParsePrintMember(members[0], "}" + rest);
      assert ("}" + rest)[1..] == rest && [members[0]] == members;
    } else {
      ParsePrintMembers(members[1..], rest);
      ParsePrintedMembers(members, PrintMembers(members[1..], "}" + rest), rest);
    }
  }
}
