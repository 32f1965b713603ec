/** The merge of JUnit files: test cases selected by name, one for each name. */
module JUnitFilter {
  import opened Base

  datatype TestCase = TestCase(name: string, time: string, systemOut: string, systemErr: string, failure: string, skipped: string)

  // ----- skip reasons as text

  /** SkipReason.UnmarshalText: an element without text is kept as a blank. */
  function UnmarshalText(text: string): string {
    if text == "" then " " else text
  }

  function MarshalText(reason: string): string {
    if reason == " " then "" else reason
  }

  /** Exactly the reasons that are not empty survive; an empty one stands for a
      test that was run, and its element is not written at all.  No text of an element
      is read as that, and all texts but a single blank come back. */
  lemma SkipReasonRoundTrip(reason: string)
    ensures UnmarshalText(MarshalText(reason)) == reason <==> reason != ""
    ensures UnmarshalText(reason) != "" && (MarshalText(UnmarshalText(reason)) == reason <==> reason != " ")
  {
  }

  // ----- what is kept for a name

  function First(cases: seq<TestCase>, name: string): Option<TestCase> {
    if cases == [] then None
    else if cases[0].name == name then Some(cases[0])
    else First(cases[1..], name)
  }

  /** The first case of that name that was not skipped. */
  function FirstRun(cases: seq<TestCase>, name: string): Option<TestCase> {
    if cases == [] then None
    else if cases[0].name == name && cases[0].skipped == "" then Some(cases[0])
    else FirstRun(cases[1..], name)
  }

  function Kept(cases: seq<TestCase>, name: string): Option<TestCase> {
    if FirstRun(cases, name).Some? then FirstRun(cases, name) else First(cases, name)
  }

  /** For each name that matches and occurs, the first case that was run, or the
      first one if all were skipped. */
  ghost predicate IsMerge(cases: seq<TestCase>, matches: string -> bool, merged: map<string, TestCase>) {
    forall name ::
      && (name in merged <==> matches(name) && Kept(cases, name).Some?)
      && (name in merged ==> Kept(cases, name) == Some(merged[name]))
  }

  /** The values of a map in some order. */
  ghost predicate Lists(merged: map<string, TestCase>, cases: seq<TestCase>) {
    && (forall k :: 0 <= k < |cases| ==> cases[k].name in merged && merged[cases[k].name] == cases[k])
    && (forall j, k :: 0 <= j < k < |cases| ==> cases[j].name != cases[k].name)
    && (forall name :: name in merged ==> exists k :: 0 <= k < |cases| && cases[k].name == name)
  }

  lemma {:induction false} KeptConcat(a: seq<TestCase>, b: seq<TestCase>, name: string)
    ensures First(a + b, name) == if First(a, name).Some? then First(a, name) else First(b, name)
    ensures FirstRun(a + b, name) == if FirstRun(a, name).Some? then FirstRun(a, name) else FirstRun(b, name)
  {
    if a == [] {
      assert a + b == b;
    } else {
      KeptConcat(a[1..], b, name);
      assert (a + b)[1..] == a[1..] + b;
    }
  }

  lemma {:induction false} KeptIsOne(cases: seq<TestCase>, name: string)
    ensures First(cases, name).Some? ==> First(cases, name).value.name == name
    ensures FirstRun(cases, name).Some? ==> FirstRun(cases, name).value.name == name && FirstRun(cases, name).value.skipped == ""
    ensures FirstRun(cases, name).Some? ==> First(cases, name).Some?
    ensures First(cases, name).Some? && First(cases, name).value.skipped == "" ==> FirstRun(cases, name) == First(cases, name)
  {
    if cases != [] {
      KeptIsOne(cases[1..], name);
    }
  }

  /** Whether a case replaces what is kept so far. */
  predicate Replaces(testcase: TestCase, filtered: map<string, TestCase>) {
    testcase.name !in filtered || (filtered[testcase.name].skipped != "" && testcase.skipped == "")
  }

  lemma MergeStep(cases: seq<TestCase>, testcase: TestCase, matches: string -> bool, filtered: map<string, TestCase>)
    requires IsMerge(cases, matches, filtered)
    ensures IsMerge(cases + [testcase], matches,
              if matches(testcase.name) && Replaces(testcase, filtered) then filtered[testcase.name := testcase] else filtered)
  {
    var next := if matches(testcase.name) && Replaces(testcase, filtered) then filtered[testcase.name := testcase] else filtered;
    forall name
      ensures name in next <==> matches(name) && Kept(cases + [testcase], name).Some?
      ensures name in next ==> Kept(cases + [testcase], name) == Some(next[name])
    {
      KeptConcat(cases, [testcase], name);
      KeptIsOne(cases, name);
      assert name in filtered <==> matches(name) && Kept(cases, name).Some?;
    }
  }

  /** The loop of main over the test cases. */
  method Merge(cases: seq<TestCase>, matches: string -> bool) returns (filtered: map<string, TestCase>)
    ensures IsMerge(cases, matches, filtered)
  {
    filtered := map[];
    for k := 0 to |cases|
      invariant IsMerge(cases[..k], matches, filtered)
    {
      var testcase := cases[k];
      assert cases[..k + 1] == cases[..k] + [testcase];
      MergeStep(cases[..k], testcase, matches, filtered);
      if !matches(testcase.name) {
        continue;
      }
      if Replaces(testcase, filtered) {
        filtered := filtered[testcase.name := testcase];
      }
    }
    assert cases[..|cases|] == cases;
  }

  /** The loop of main over the map, in whatever order it comes. */
  method Values(filtered: map<string, TestCase>) returns (cases: seq<TestCase>)
    requires forall name :: name in filtered ==> filtered[name].name == name
    ensures Lists(filtered, cases)
  {
    cases := [];
    var todo := filtered.Keys;
    while todo != {}
      invariant todo <= filtered.Keys
      invariant Lists(Without(filtered, todo), cases)
      decreases todo
    {
      var name :| name in todo;
      ListOneMore(filtered, todo, cases, name);
      cases := cases + [filtered[name]];
      todo := todo - {name};
    }
    assert Without(filtered, {}) == filtered;
  }

  ghost function Without(filtered: map<string, TestCase>, todo: set<string>): map<string, TestCase> {
    map name | name in filtered && name !in todo :: filtered[name]
  }

  lemma ListOneMore(filtered: map<string, TestCase>, todo: set<string>, cases: seq<TestCase>, name: string)
    requires forall name :: name in filtered ==> filtered[name].name == name
    requires name in todo && name in filtered && Lists(Without(filtered, todo), cases)
    ensures Lists(Without(filtered, todo - {name}), cases + [filtered[name]])
  {
    var more, after := cases + [filtered[name]], Without(filtered, todo - {name});
    forall n | n in after ensures exists k :: 0 <= k < |more| && more[k].name == n {
      if n == name {
        assert more[|cases|].name == n;
      } else {
        assert n in Without(filtered, todo);
        var k :| 0 <= k < |cases| && cases[k].name == n;
        assert more[k].name == n;
      }
    }
  }

  method Filter(cases: seq<TestCase>, matches: string -> bool) returns (result: seq<TestCase>)
    ensures exists merged :: IsMerge(cases, matches, merged) && Lists(merged, result)
  {
    var filtered := Merge(cases, matches);
    forall name ensures name in filtered ==> filtered[name].name == name {
      KeptIsOne(cases, name);
    }
    result := Values(filtered);
  }

  lemma {:induction false} HasFirst(cases: seq<TestCase>, k: nat)
    requires k < |cases|
    ensures First(cases, cases[k].name).Some? && (cases[k].skipped == "" ==> FirstRun(cases, cases[k].name).Some?)
  {
    if k > 0 {
      HasFirst(cases[1..], k - 1);
    }
  }

  lemma {:induction false} FirstAt(cases: seq<TestCase>, name: string) returns (k: nat)
    requires First(cases, name).Some?
    ensures k < |cases| && cases[k].name == name && First(cases, name) == Some(cases[k])
    ensures forall i :: 0 <= i < k ==> cases[i].name != name
  {
    k := 0;
    if cases[0].name != name {
      k := FirstAt(cases[1..], name);
      k := k + 1;
    }
  }

  lemma {:induction false} FirstRunAt(cases: seq<TestCase>, name: string) returns (k: nat)
    requires FirstRun(cases, name).Some?
    ensures k < |cases| && cases[k].name == name && FirstRun(cases, name) == Some(cases[k]) && cases[k].skipped == ""
    ensures forall i :: 0 <= i < k && cases[i].name == name ==> cases[i].skipped != ""
  {
    k := 0;
    if !(cases[0].name == name && cases[0].skipped == "") {
      k := FirstRunAt(cases[1..], name);
      k := k + 1;
    }
  }

  /** Case k is the one to keep for its name: the first that was run, or, if none was,
      the first. */
  ghost predicate IsKept(cases: seq<TestCase>, k: nat)
    requires k < |cases|
  {
    if cases[k].skipped == "" then
      forall i :: 0 <= i < k && cases[i].name == cases[k].name ==> cases[i].skipped != ""
    else
      && (forall i :: 0 <= i < k ==> cases[i].name != cases[k].name)
      && forall i :: 0 <= i < |cases| && cases[i].name == cases[k].name ==> cases[i].skipped != ""
  }

  /** The names that are kept are those of the cases that match, and for each of them
      one of its cases is kept: the first that was run, or else the first. */
  lemma MergeKeeps(cases: seq<TestCase>, matches: string -> bool, merged: map<string, TestCase>, name: string)
    requires IsMerge(cases, matches, merged)
    ensures name in merged <==> matches(name) && exists k :: 0 <= k < |cases| && cases[k].name == name
    ensures name in merged ==> exists k :: 0 <= k < |cases| && merged[name] == cases[k] && cases[k].name == name && IsKept(cases, k)
  {
    assert name in merged <==> matches(name) && Kept(cases, name).Some?;
    if k: nat :| k < |cases| && cases[k].name == name {
      HasFirst(cases, k);
    }
    if name in merged {
      var k := KeptAt(cases, name);
    }
  }

  lemma KeptAt(cases: seq<TestCase>, name: string) returns (k: nat)
    requires Kept(cases, name).Some?
    ensures k < |cases| && cases[k].name == name && Kept(cases, name) == Some(cases[k]) && IsKept(cases, k)
  {
    if FirstRun(cases, name).Some? {
      k := FirstRunAt(cases, name);
    } else {
      k := FirstAt(cases, name);
      forall i: nat | i < |cases| && cases[i].name == name ensures cases[i].skipped != "" {
        HasFirst(cases, i);
      }
    }
  }

  // ----- the algebra of merging

  lemma MergeIsUnique(cases: seq<TestCase>, matches: string -> bool, m: map<string, TestCase>, n: map<string, TestCase>)
    requires IsMerge(cases, matches, m) && IsMerge(cases, matches, n)
    ensures m == n
  {
    forall name ensures name in m <==> name in n { }
    forall name | name in m ensures m[name] == n[name] { }
  }

  lemma {:induction false} ListedIsFirst(merged: map<string, TestCase>, cases: seq<TestCase>, k: nat)
    requires forall i, j :: 0 <= i < j < |cases| ==> cases[i].name != cases[j].name
    requires k < |cases|
    ensures First(cases, cases[k].name) == Some(cases[k])
    ensures FirstRun(cases, cases[k].name) == if cases[k].skipped == "" then Some(cases[k]) else None
  {
    if k > 0 {
      ListedIsFirst(merged, cases[1..], k - 1);
    } else {
      NotListed(cases[1..], cases[0].name);
    }
  }

  lemma {:induction false} NotListed(cases: seq<TestCase>, name: string)
    requires forall k :: 0 <= k < |cases| ==> cases[k].name != name
    ensures First(cases, name) == None && FirstRun(cases, name) == None
  {
    if cases != [] {
      NotListed(cases[1..], name);
    }
  }

  lemma ListedKept(a: seq<TestCase>, matches: string -> bool, merged: map<string, TestCase>, listed: seq<TestCase>, b: seq<TestCase>, name: string)
    requires IsMerge(a, matches, merged) && Lists(merged, listed) && matches(name)
    ensures Kept(listed + b, name) == Kept(a + b, name)
  {
    KeptConcat(a, b, name);
    KeptConcat(listed, b, name);
    KeptIsOne(a, name);
    if name in merged {
      var k :| 0 <= k < |listed| && listed[k].name == name;
      ListedIsFirst(merged, listed, k);
    } else {
      NotListed(listed, name);
    }
  }

  /** Filtering a filtered file together with more cases gives the same as
      filtering everything at once, in whatever order the file lists its cases. */
  lemma MergeIncrementally(a: seq<TestCase>, b: seq<TestCase>, matches: string -> bool, merged: map<string, TestCase>, listed: seq<TestCase>, all: map<string, TestCase>)
    requires IsMerge(a, matches, merged) && Lists(merged, listed)
    ensures IsMerge(listed + b, matches, all) <==> IsMerge(a + b, matches, all)
  {
    forall name | matches(name) ensures Kept(listed + b, name) == Kept(a + b, name) {
      ListedKept(a, matches, merged, listed, b, name);
    }
  }
}
