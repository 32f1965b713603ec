/** The search for the default VolumeSnapshotClass of a driver. */
module SnapshotClasses {
  import opened Base

  datatype VolumeSnapshotClass = VolumeSnapshotClass(name: string, driver: string, annotations: Option<map<string, string>>)

  datatype Selection = Found(vsClass: VolumeSnapshotClass) | MultipleDefaults | NoDefault

  /** Of the driver, and annotated as a default; key is the name of the annotation. */
  predicate IsDefault(c: VolumeSnapshotClass, driver: string, key: string) {
    c.driver == driver && c.annotations.Some? && key in c.annotations.value && c.annotations.value[key] == "true"
  }

  function Defaults(items: seq<VolumeSnapshotClass>, driver: string, key: string): seq<VolumeSnapshotClass> {
    if items == [] then []
    else
      var last := items[|items| - 1];
      Defaults(items[..|items| - 1], driver, key) + if IsDefault(last, driver, key) then [last] else []
  }

  /** Exactly one default is a selection, several are one error and none another. */
  ghost predicate Selects(defaults: seq<VolumeSnapshotClass>, r: Selection) {
    match r
    case Found(c) => defaults == [c]
    case MultipleDefaults => |defaults| >= 2
    case NoDefault => |defaults| == 0
  }

  method GetDefaultVolumeSnapshotClassForDriver(items: seq<VolumeSnapshotClass>, driver: string, key: string) returns (r: Selection)
    ensures Selects(Defaults(items, driver, key), r)
  {
    var idxFound := -1;
    for idx := 0 to |items|
      invariant -1 <= idxFound < idx
      invariant Defaults(items[..idx], driver, key) == if idxFound == -1 then [] else [items[idxFound]]
    {
      var vsc := items[idx];
      DefaultsStep(items, driver, key, idx);
      if vsc.driver != driver || vsc.annotations.None? { continue; }
      if key !in vsc.annotations.value { continue; }
      if vsc.annotations.value[key] == "true" {
        if idxFound != -1 {
          DefaultsPrefix(items, driver, key, idx + 1);
          return MultipleDefaults;
        }
        idxFound := idx;
      }
    }
    assert items[..|items|] == items;
    return if idxFound != -1 then Found(items[idxFound]) else NoDefault;
  }

  lemma DefaultsStep(items: seq<VolumeSnapshotClass>, driver: string, key: string, k: nat)
    requires k < |items|
    ensures Defaults(items[..k + 1], driver, key) == Defaults(items[..k], driver, key) + if IsDefault(items[k], driver, key) then [items[k]] else []
  {
    assert items[..k + 1][..k] == items[..k];
  }

  lemma {:induction false} DefaultsPrefix(items: seq<VolumeSnapshotClass>, driver: string, key: string, k: nat)
    requires k <= |items|
    ensures Defaults(items[..k], driver, key) <= Defaults(items, driver, key)
  {
    if k == |items| {
      assert items[..k] == items;
    } else {
      DefaultsPrefix(items[..|items| - 1], driver, key, k);
      assert items[..|items| - 1][..k] == items[..k];
    }
  }

  /** A class of the driver whose annotations say so. */
  ghost predicate SaysDefault(c: VolumeSnapshotClass, driver: string, key: string) {
    c.driver == driver && c.annotations.Some? && (key, "true") in c.annotations.value.Items
  }

  lemma {:induction false} NoDefaults(items: seq<VolumeSnapshotClass>, driver: string, key: string)
    requires Defaults(items, driver, key) == []
    ensures forall i :: 0 <= i < |items| ==> !SaysDefault(items[i], driver, key)
  {
    if items != [] {
      NoDefaults(items[..|items| - 1], driver, key);
    }
  }

  lemma {:induction false} OneDefault(items: seq<VolumeSnapshotClass>, driver: string, key: string) returns (i: nat)
    requires |Defaults(items, driver, key)| == 1
    ensures i < |items| && Defaults(items, driver, key) == [items[i]]
    ensures forall j :: 0 <= j < |items| ==> (SaysDefault(items[j], driver, key) <==> j == i)
  {
    i := |items| - 1;
    if IsDefault(items[i], driver, key) {
      NoDefaults(items[..i], driver, key);
    } else {
      i := OneDefault(items[..i], driver, key);
    }
  }

  lemma {:induction false} SomeDefault(items: seq<VolumeSnapshotClass>, driver: string, key: string) returns (i: nat)
    requires Defaults(items, driver, key) != []
    ensures i < |items| && SaysDefault(items[i], driver, key)
  {
    i := |items| - 1;
    if !IsDefault(items[i], driver, key) {
      i := SomeDefault(items[..i], driver, key);
    }
  }

  lemma {:induction false} TwoDefaults(items: seq<VolumeSnapshotClass>, driver: string, key: string) returns (i: nat, j: nat)
    requires |Defaults(items, driver, key)| > 1
    ensures i < j < |items| && SaysDefault(items[i], driver, key) && SaysDefault(items[j], driver, key)
  {
    j := |items| - 1;
    if IsDefault(items[j], driver, key) {
      i := SomeDefault(items[..j], driver, key);
    } else {
      i, j := TwoDefaults(items[..j], driver, key);
    }
  }

  /** A class is found exactly if it is the only one of the driver whose annotation
      says "true"; there are several exactly if two of them say so, and none exactly
      if none does. */
  lemma SelectionMeans(items: seq<VolumeSnapshotClass>, driver: string, key: string, r: Selection)
    requires Selects(Defaults(items, driver, key), r)
    ensures r.Found? ==>
              exists i :: 0 <= i < |items| && r.vsClass == items[i] && forall j :: 0 <= j < |items| ==> (SaysDefault(items[j], driver, key) <==> j == i)
    ensures r.MultipleDefaults? <==> exists i, j :: 0 <= i < j < |items| && SaysDefault(items[i], driver, key) && SaysDefault(items[j], driver, key)
    ensures r.NoDefault? <==> forall i :: 0 <= i < |items| ==> !SaysDefault(items[i], driver, key)
  {
    match r
    case Found(_) => var i := OneDefault(items, driver, key);
    case MultipleDefaults => var i, j := TwoDefaults(items, driver, key);
    case NoDefault => NoDefaults(items, driver, key);
  }

  lemma {:induction false} CountDefaults(items: seq<VolumeSnapshotClass>, driver: string, key: string, c: VolumeSnapshotClass)
    ensures multiset(Defaults(items, driver, key))[c] == if IsDefault(c, driver, key) then multiset(items)[c] else 0
  {
    if items != [] {
      var init, last := items[..|items| - 1], items[|items| - 1];
      CountDefaults(init, driver, key, c);
      assert items == init + [last];
    }
  }

  /** The outcome does not depend on the order in which the API lists the classes. */
  lemma SelectionIgnoresOrder(a: seq<VolumeSnapshotClass>, b: seq<VolumeSnapshotClass>, driver: string, key: string, r: Selection, q: Selection)
    requires multiset(a) == multiset(b)
    requires Selects(Defaults(a, driver, key), r) && Selects(Defaults(b, driver, key), q)
    ensures r == q
  {
    var x, y := Defaults(a, driver, key), Defaults(b, driver, key);
    forall c ensures multiset(x)[c] == multiset(y)[c] {
      CountDefaults(a, driver, key, c);
      CountDefaults(b, driver, key, c);
    }
    assert multiset(x) == multiset(y);
    assert |x| == |multiset(x)| == |multiset(y)| == |y|;
    if |x| == 1 {
      assert x[0] in multiset(y);
    }
  }
}
