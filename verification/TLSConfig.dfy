/** The parsers of the lists among the TLS settings. */
module TLSConfig {
  import opened Base

  type ID = n: nat | n < 0x1_0000   // uint16

  const TLS_CURVES: map<string, ID> := map[
    "X25519" := 29,
    "CurveP256" := 23,
    "CurveP384" := 24,
    "CurveP521" := 25,
    "X25519MLKEM768" := 4588]

  /** A parsed list, nil if it names nothing, or the first name that is unknown. */
  datatype Parsed = Parsed(ids: Option<seq<ID>>) | Unsupported(name: string)

  // ----- strings.Split(s, ",")

  function Split(s: string): (items: seq<string>)
    ensures items != []
  {
    if s == "" then [""]
    else if s[0] == ',' then [""] + Split(s[1..])
    else
      var rest := Split(s[1..]);
      [[s[0]] + rest[0]] + rest[1..]
  }

  function Join(items: seq<string>): string
    requires items != []
  {
    if |items| == 1 then items[0] else items[0] + "," + Join(items[1..])
  }

  ghost predicate CommaFree(s: string) {
    forall i :: 0 <= i < |s| ==> s[i] != ','
  }

  /** Splitting cuts exactly at the commas. */
  lemma {:induction false} JoinSplit(s: string)
    ensures Join(Split(s)) == s
    ensures forall i :: 0 <= i < |Split(s)| ==> CommaFree(Split(s)[i])
  {
    if s != "" {
      JoinSplit(s[1..]);
      var rest := Split(s[1..]);
      if s[0] == ',' {
        assert ([""] + rest)[1..] == rest;
        assert Join([""] + rest) == "" + "," + s[1..];
      } else {
        var items := [[s[0]] + rest[0]] + rest[1..];
        assert items[1..] == rest[1..];
        if |rest| > 1 {
          assert Join(items) == [s[0]] + (rest[0] + "," + Join(rest[1..]));
        }
      }
    }
  }

  lemma {:induction false} SplitWithoutComma(s: string)
    requires CommaFree(s)
    ensures Split(s) == [s]
  {
    if s != "" {
      SplitWithoutComma(s[1..]);
      assert [s[0]] + s[1..] == s;
      assert [s[1..]][1..] == [];
    }
  }

  lemma {:induction false} SplitFirst(item: string, rest: string)
    requires CommaFree(item)
    ensures Split(item + "," + rest) == [item] + Split(rest)
  {
    var s := item + "," + rest;
    if item == "" {
      assert s[1..] == rest;
    } else {
      SplitFirst(item[1..], rest);
      assert s[1..] == item[1..] + "," + rest;
      assert [s[0]] + item[1..] == item;
      assert ([item[1..]] + Split(rest))[1..] == Split(rest);
    }
  }

  lemma {:induction false} SplitJoin(items: seq<string>)
    requires items != [] && forall i :: 0 <= i < |items| ==> CommaFree(items[i])
    ensures Split(Join(items)) == items
  {
    if |items| == 1 {
      SplitWithoutComma(items[0]);
    } else {
      SplitJoin(items[1..]);
      SplitFirst(items[0], Join(items[1..]));
      assert [items[0]] + items[1..] == items;
    }
  }

  // ----- strings.TrimSpace(s)

  /** unicode.IsSpace. */
  predicate IsSpace(c: char) {
    || '\t' <= c <= '\r' || c == ' ' || c == '\U{85}' || c == '\U{A0}' || c == '\U{1680}'
    || '\U{2000}' <= c <= '\U{200A}' || c == '\U{2028}' || c == '\U{2029}' || c == '\U{202F}'
    || c == '\U{205F}' || c == '\U{3000}'
  }

  function TrimLeft(s: string): string {
    if s != "" && IsSpace(s[0]) then TrimLeft(s[1..]) else s
  }

  function TrimRight(s: string): string {
    if s != "" && IsSpace(s[|s| - 1]) then TrimRight(s[..|s| - 1]) else s
  }

  function TrimSpace(s: string): string {
    TrimRight(TrimLeft(s))
  }

  ghost predicate Blank(s: string) {
    forall i :: 0 <= i < |s| ==> IsSpace(s[i])
  }

  /** Empty, or with other characters than spaces at both ends. */
  predicate Trimmed(s: string) {
    s != "" ==> !IsSpace(s[0]) && !IsSpace(s[|s| - 1])
  }

  lemma {:induction false} TrimLeftOf(left: string, s: string)
    requires Blank(left) && (s != "" ==> !IsSpace(s[0]))
    ensures TrimLeft(left + s) == s
  {
    if left == "" {
      assert left + s == s;
    } else {
      TrimLeftOf(left[1..], s);
      assert (left + s)[1..] == left[1..] + s;
    }
  }

  lemma {:induction false} TrimRightOf(s: string, right: string)
    requires Blank(right) && (s != "" ==> !IsSpace(s[|s| - 1]))
    ensures TrimRight(s + right) == s
  {
    if right == "" {
      assert s + right == s;
    } else {
      TrimRightOf(s, right[..|right| - 1]);
      assert (s + right)[..|s + right| - 1] == s + right[..|right| - 1];
    }
  }

  /** Trimming removes exactly the spaces around. */
  lemma TrimSpaceOf(left: string, s: string, right: string)
    requires Blank(left) && Blank(right) && Trimmed(s)
    ensures TrimSpace(left + s + right) == s
  {
    if s == "" {
      TrimLeftOf(left + right, "");
      assert left + right + "" == left + s + right;
    } else {
      TrimLeftOf(left, s + right);
      TrimRightOf(s, right);
      assert left + (s + right) == left + s + right;
    }
  }

  // ----- the list parser

  /** The trimmed items that are not empty, in order. */
  function Wanted(items: seq<string>): seq<string> {
    if items == [] then []
    else
      var name := TrimSpace(items[|items| - 1]);
      Wanted(items[..|items| - 1]) + if name == "" then [] else [name]
  }

  function IDs(names: seq<string>, table: map<string, ID>): (ids: seq<ID>)
    requires forall i :: 0 <= i < |names| ==> names[i] in table
    ensures |ids| == |names|
  {
    seq(|names|, i requires 0 <= i < |names| => table[names[i]])
  }

  /** What parsing a list that names these names is to yield. */
  ghost predicate IsParsed(names: seq<string>, table: map<string, ID>, r: Parsed) {
    match r
    case Parsed(ids) =>
      && (forall i :: 0 <= i < |names| ==> names[i] in table)
      && ids == if names == [] then None else Some(IDs(names, table))
    case Unsupported(name) =>
      exists k :: 0 <= k < |names| && names[k] == name && name !in table && forall i :: 0 <= i < k ==> names[i] in table
  }

  /** The common body of the two list parsers: success exactly if every item that
      is not blank is in the table, and then the identifiers in order. */
  method ParseNames(csv: string, table: map<string, ID>) returns (r: Parsed)
    ensures IsParsed(Wanted(Split(csv)), table, r)
  {
    if csv == "" {
      assert Wanted([""]) == Wanted([""][..0]);
      return Parsed(None);
    }
    var items := Split(csv);
    var ids: seq<ID> := [];
    for k := 0 to |items|
      invariant forall i :: 0 <= i < |Wanted(items[..k])| ==> Wanted(items[..k])[i] in table
      invariant ids == IDs(Wanted(items[..k]), table)
    {
      ghost var names := Wanted(items[..k]);
      WantedSnoc(items, k);
      var name := TrimSpace(items[k]);
      if name != "" {
        if name !in table {
          FirstUnsupported(items, k, names, name, table);
          return Unsupported(name);
        }
        IDsSnoc(names, name, table);
        ids := ids + [table[name]];
      }
    }
    assert items[..|items|] == items;
    return Parsed(if ids == [] then None else Some(ids));
  }

  lemma FirstUnsupported(items: seq<string>, k: nat, names: seq<string>, name: string, table: map<string, ID>)
    requires k < |items| && names == Wanted(items[..k]) && Wanted(items[..k + 1]) == names + [name]
    requires name !in table && forall i :: 0 <= i < |names| ==> names[i] in table
    ensures IsParsed(Wanted(items), table, Unsupported(name))
  {
    WantedPrefix(items, k + 1);
    var all := Wanted(items);
    assert all[|names|] == name;
    assert forall i :: 0 <= i < |names| ==> all[i] == names[i];
  }

  lemma WantedSnoc(items: seq<string>, k: nat)
    requires k < |items|
    ensures Wanted(items[..k + 1]) == Wanted(items[..k]) + if TrimSpace(items[k]) == "" then [] else [TrimSpace(items[k])]
  {
    assert items[..k + 1][..k] == items[..k];
  }

  lemma IDsSnoc(names: seq<string>, name: string, table: map<string, ID>)
    requires name in table && forall i :: 0 <= i < |names| ==> names[i] in table
    ensures IDs(names + [name], table) == IDs(names, table) + [table[name]]
  {
  }

  lemma {:induction false} WantedPrefix(items: seq<string>, k: nat)
    requires k <= |items|
    ensures Wanted(items[..k]) <= Wanted(items)
  {
    if k == |items| {
      assert items[..k] == items;
    } else {
      WantedPrefix(items[..|items| - 1], k);
      assert items[..|items| - 1][..k] == items[..k];
    }
  }

  /** The suites by name. */
  function TableOf(suites: seq<(string, ID)>): map<string, ID> {
    if suites == [] then map[]
    else
      var last := suites[|suites| - 1];
      TableOf(suites[..|suites| - 1])[last.0 := last.1]
  }

  lemma {:induction false} InTable(suites: seq<(string, ID)>, k: nat)
    requires k < |suites|
    ensures suites[k].0 in TableOf(suites)
  {
    if k < |suites| - 1 {
      InTable(suites[..|suites| - 1], k);
    }
  }

  /** A name is in the table with the last identifier that it has in the list. */
  lemma {:induction false} TableHasLast(suites: seq<(string, ID)>, name: string) returns (k: nat)
    requires name in TableOf(suites)
    ensures k < |suites| && suites[k].0 == name && TableOf(suites)[name] == suites[k].1
    ensures forall j :: k < j < |suites| ==> suites[j].0 != name
  {
    k := |suites| - 1;
    if suites[k].0 != name {
      k := TableHasLast(suites[..k], name);
    }
  }

  /** The suites are those that crypto/tls reports as safe. */
  method ParseCipherSuites(csv: string, suites: seq<(string, ID)>) returns (r: Parsed)
    ensures IsParsed(Wanted(Split(csv)), TableOf(suites), r)
  {
    var table: map<string, ID> := map[];
    for i := 0 to |suites|
      invariant table == TableOf(suites[..i])
    {
      assert suites[..i + 1][..i] == suites[..i];
      table := table[suites[i].0 := suites[i].1];
    }
    assert suites[..|suites|] == suites;
    r := ParseNames(csv, table);
  }

  method ParseCurvePreferences(csv: string) returns (r: Parsed)
    ensures IsParsed(Wanted(Split(csv)), TLS_CURVES, r)
  {
    r := ParseNames(csv, TLS_CURVES);
  }

  // ----- the round trip

  /** The result of parsing is determined by the names. */
  lemma ParsedIsUnique(names: seq<string>, table: map<string, ID>, a: Parsed, b: Parsed)
    requires IsParsed(names, table, a) && IsParsed(names, table, b)
    ensures a == b
  {
    if a.Unsupported? && b.Unsupported? {
      var j :| 0 <= j < |names| && names[j] == a.name && a.name !in table && forall i :: 0 <= i < j ==> names[i] in table;
      var k :| 0 <= k < |names| && names[k] == b.name && b.name !in table && forall i :: 0 <= i < k ==> names[i] in table;
      assert !(j < k) && !(k < j);
    }
  }

  /** A name, or nothing, between blanks. */
  datatype Item = Item(left: string, name: string, right: string) {
    function Text(): string {
      left + name + right
    }
  }

  /** A name that can be written in a list. */
  ghost predicate Writable(name: string) {
    CommaFree(name) && Trimmed(name)
  }

  function Texts(items: seq<Item>): (texts: seq<string>)
    ensures |texts| == |items|
  {
    seq(|items|, i requires 0 <= i < |items| => items[i].Text())
  }

  function Names(items: seq<Item>): seq<string> {
    if items == [] then []
    else
      var name := items[|items| - 1].name;
      Names(items[..|items| - 1]) + if name == "" then [] else [name]
  }

  lemma {:induction false} WantedTexts(items: seq<Item>)
    requires forall i :: 0 <= i < |items| ==> Blank(items[i].left) && Blank(items[i].right) && Trimmed(items[i].name)
    ensures Wanted(Texts(items)) == Names(items)
  {
    if items != [] {
      var init, last := items[..|items| - 1], items[|items| - 1];
      WantedTexts(init);
      TrimSpaceOf(last.left, last.name, last.right);
      assert Texts(items)[..|items| - 1] == Texts(init);
    }
  }

  lemma BlankIsCommaFree(s: string)
    requires Blank(s)
    ensures CommaFree(s)
  {
    forall i | 0 <= i < |s| ensures s[i] != ',' {
      assert IsSpace(s[i]);
    }
  }

  /** Any known names, joined by commas with blanks around them and blank items
      among them, parse to exactly their identifiers in order. */
  lemma JoinedNamesParse(items: seq<Item>, table: map<string, ID>, r: Parsed)
    requires items != []
    requires forall i :: 0 <= i < |items| ==>
               Blank(items[i].left) && Blank(items[i].right) && Writable(items[i].name) && (items[i].name == "" || items[i].name in table)
    requires IsParsed(Wanted(Split(Join(Texts(items)))), table, r)
    ensures forall i :: 0 <= i < |Names(items)| ==> Names(items)[i] in table
    ensures r == Parsed(if Names(items) == [] then None else Some(IDs(Names(items), table)))
  {
    forall i | 0 <= i < |items| ensures CommaFree(Texts(items)[i]) {
      BlankIsCommaFree(items[i].left);
      BlankIsCommaFree(items[i].right);
    }
    SplitJoin(Texts(items));
    WantedTexts(items);
    NamesKnown(items, table);
  }

  lemma {:induction false} NamesKnown(items: seq<Item>, table: map<string, ID>)
    requires forall i :: 0 <= i < |items| ==> items[i].name == "" || items[i].name in table
    ensures forall i :: 0 <= i < |Names(items)| ==> Names(items)[i] in table
  {
    if items != [] {
      NamesKnown(items[..|items| - 1], table);
    }
  }

  /** The names of the curves can be written in a list. */
  lemma CurvesAreWritable(name: string)
    requires name in TLS_CURVES
    ensures name != "" && Writable(name)
  {
  }

  /** The curves and the numbers of their groups, for which see section 4.2.7 of RFC
      8446 and, of the hybrid one, the IANA registry. */
  lemma CurveGroups(name: string, id: ID)
    ensures name in TLS_CURVES && TLS_CURVES[name] == id <==>
              || (name == "CurveP256" && id == 0x0017) || (name == "CurveP384" && id == 0x0018) || (name == "CurveP521" && id == 0x0019)
              || (name == "X25519" && id == 0x001D) || (name == "X25519MLKEM768" && id == 0x11EC)
  {
  }

  lemma NothingToTrim(name: string)
    requires Trimmed(name)
    ensures TrimSpace(name) == name
  {
    TrimSpaceOf("", name, "");
    assert "" + name + "" == name;
  }

  lemma {:induction false} WantedIsAll(names: seq<string>, k: nat)
    requires k <= |names| && forall j :: 0 <= j < |names| ==> names[j] != "" && TrimSpace(names[j]) == names[j]
    ensures Wanted(names[..k]) == names[..k]
  {
    if k == 0 {
      assert names[..k] == [];
    } else {
      var i := k - 1;
      WantedIsAll(names, i);
      WantedSnoc(names, i);
      OneMore(names, k);
    }
  }

  lemma OneMore(names: seq<string>, k: nat)
    requires 0 < k <= |names|
    ensures names[..k] == names[..k - 1] + [names[k - 1]]
  {
  }

  lemma WantedOfJoined(names: seq<string>)
    requires names != [] && forall k :: 0 <= k < |names| ==> names[k] != "" && Writable(names[k])
    ensures Wanted(Split(Join(names))) == names
  {
    SplitJoin(names);
    forall j | 0 <= j < |names| ensures TrimSpace(names[j]) == names[j] {
      NothingToTrim(names[j]);
    }
    WantedIsAll(names, |names|);
    assert names[..|names|] == names;
  }

  lemma ParsedKnown(names: seq<string>, table: map<string, ID>, r: Parsed, k: nat)
    requires k < |names| && (forall k :: 0 <= k < |names| ==> names[k] in table) && IsParsed(names, table, r)
    ensures r.Parsed? && r.ids.Some? && |r.ids.value| == |names| && r.ids.value[k] == table[names[k]]
  {
  }

  /** Known names with nothing but commas between them parse to their identifiers, one
      by one. */
  lemma KnownNamesParse(names: seq<string>, table: map<string, ID>, r: Parsed, k: nat)
    requires k < |names| && (forall j :: 0 <= j < |names| ==> names[j] in table)
    requires forall j :: 0 <= j < |names| ==> names[j] != "" && Writable(names[j])
    requires IsParsed(Wanted(Split(Join(names))), table, r)
    ensures r.Parsed? && r.ids.Some? && |r.ids.value| == |names| && r.ids.value[k] == table[names[k]]
  {
    WantedOfJoined(names);
    ParsedKnown(names, table, r, k);
  }
}
