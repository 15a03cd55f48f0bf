/**
 * Config flattening (`flattenConfig`): a nested configuration value becomes
 * entries of a flat map from dotted key to text. Maps with interface keys
 * recurse under `prefix.key`; lists write `prefix.size` and recurse under
 * `prefix.i`; every other value is printed whole at `prefix`.
 *
 * A Go map is represented by its entries in the order `range` visits them
 * in the run at hand; a later entry overwrites what an earlier one wrote.
 */
module FlatConfig {
  import opened Decimal

  datatype Value =
    | Scalar(text: string)           // string, number or bool, as `%v` prints it
    | StringMap(text: string)        // a map with string keys: not the interface-keyed case, printed whole by `%v`
    | KeyedMap(entries: seq<Entry>)  // a map with interface keys
    | List(items: seq<Value>)

  datatype Entry = Entry(key: string, value: Value)

  function SizeKey(prefix: string): string {
    prefix + ".size"
  }

  function ItemKey(prefix: string, i: nat): string {
    prefix + "." + NatToString(i)
  }

  /** Number of children of a map or list. */
  function Width(v: Value): nat
    requires v.KeyedMap? || v.List?
  {
    if v.KeyedMap? then |v.entries| else |v.items|
  }

  /** A map entry's key, or a list element's index in decimal. */
  function ChildName(v: Value, i: nat): string
    requires v.KeyedMap? || v.List?
    requires i < Width(v)
  {
    if v.KeyedMap? then v.entries[i].key else NatToString(i)
  }

  function ChildKey(prefix: string, v: Value, i: nat): string
    requires v.KeyedMap? || v.List?
    requires i < Width(v)
  {
    prefix + "." + ChildName(v, i)
  }

  function Child(v: Value, i: nat): Value
    requires v.KeyedMap? || v.List?
    requires i < Width(v)
  {
    if v.KeyedMap? then v.entries[i].value else v.items[i]
  }

  /** The flat map after flattening v at prefix into m. Flattening only ever adds or overwrites keys. */
  function Flattened(prefix: string, v: Value, m: map<string, string>): (r: map<string, string>)
    ensures m.Keys <= r.Keys
    decreases v, 1
  {
    match v
    case Scalar(t) => m[prefix := t]
    case StringMap(t) => m[prefix := t]
    case KeyedMap(_) => FlattenedChildren(prefix, v, 0, m)
    case List(items) => FlattenedChildren(prefix, v, 0, m[SizeKey(prefix) := NatToString(|items|)])
  }

  /** Flattens the children of a map or list from index i on, in order. */
  function FlattenedChildren(prefix: string, v: Value, i: nat, m: map<string, string>): (r: map<string, string>)
    requires v.KeyedMap? || v.List?
    requires i <= Width(v)
    ensures m.Keys <= r.Keys
    decreases v, 0, Width(v) - i
  {
    if i == Width(v) then m
    else
      var c := if v.KeyedMap? then v.entries[i].value else v.items[i];
      FlattenedChildren(prefix, v, i + 1, Flattened(ChildKey(prefix, v, i), c, m))
  }

  /** The entries flattening v at prefix writes, on their own. */
  function Produced(prefix: string, v: Value): map<string, string> {
    Flattened(prefix, v, map[])
  }

  function ChildProduced(prefix: string, v: Value, j: nat): map<string, string>
    requires v.KeyedMap? || v.List?
    requires j < Width(v)
  {
    Produced(ChildKey(prefix, v, j), Child(v, j))
  }

  /** Flattening each top-level entry in turn, with its key as the prefix. */
  function FlattenedTop(es: seq<Entry>, m: map<string, string>): map<string, string> {
    if es == [] then m else FlattenedTop(es[1..], Flattened(es[0].key, es[0].value, m))
  }

  /** k is prefix itself or lies below it: prefix followed by '.'. */
  predicate Under(prefix: string, k: string) {
    k == prefix || (|k| > |prefix| && k[..|prefix|] == prefix && k[|prefix|] == '.')
  }

  predicate DotFree(s: string) {
    forall i :: 0 <= i < |s| ==> s[i] != '.'
  }

  // ---------------------------------------------------------------------
  // Flattening writes into the caller's map in place.

  class FlatMap {
    var entries: map<string, string>

    constructor ()
      ensures entries == map[]
    {
      entries := map[];
    }

    method Put(key: string, text: string)
      modifies this
      ensures entries == old(entries)[key := text]
    {
      entries := entries[key := text];
    }

    /** flattenConfig(prefix, value, flatmap) */
    method Flatten(prefix: string, value: Value)
      modifies this
      ensures entries == Flattened(prefix, value, old(entries))
      decreases value
    {
      match value
      case Scalar(t) =>
        entries := entries[prefix := t];
      case StringMap(t) =>
        entries := entries[prefix := t];
      case KeyedMap(es) =>
        var i := 0;
        while i < |es|
          invariant 0 <= i <= |es|
          invariant FlattenedChildren(prefix, value, i, entries) == Flattened(prefix, value, old(entries))
        {
          Flatten(prefix + "." + es[i].key, es[i].value);
          i := i + 1;
        }
      case List(items) =>
        entries := entries[SizeKey(prefix) := NatToString(|items|)];
        var i := 0;
        while i < |items|
          invariant 0 <= i <= |items|
          invariant FlattenedChildren(prefix, value, i, entries) == Flattened(prefix, value, old(entries))
        {
          Flatten(ItemKey(prefix, i), items[i]);
          i := i + 1;
        }
    }

    /** `for k, v := range config { flattenConfig(k, v, flatmap) }` */
    method FlattenEach(es: seq<Entry>)
      modifies this
      ensures entries == FlattenedTop(es, old(entries))
    {
      var i := 0;
      while i < |es|
        invariant 0 <= i <= |es|
        invariant FlattenedTop(es[i..], entries) == FlattenedTop(es, old(entries))
      {
        assert es[i..][1..] == es[i + 1..];
        Flatten(es[i].key, es[i].value);
        i := i + 1;
      }
    }
  }

  // ---------------------------------------------------------------------
  // What flattening writes.

  /** Flattening into m is m overlaid with what flattening alone produces. */
  lemma {:induction false} FlattenedOverlay(prefix: string, v: Value, m: map<string, string>)
    ensures Flattened(prefix, v, m) == m + Produced(prefix, v)
    decreases v, 1
  {
    match v
    case Scalar(_) =>
    case StringMap(_) =>
    case KeyedMap(_) =>
      ChildrenOverlay(prefix, v, 0, m);
      ChildrenOverlay(prefix, v, 0, map[]);
      assert map[] + FlattenedChildren(prefix, v, 0, map[]) == FlattenedChildren(prefix, v, 0, map[]);
    case List(items) =>
      var s := map[SizeKey(prefix) := NatToString(|items|)];
      ChildrenOverlay(prefix, v, 0, m[SizeKey(prefix) := NatToString(|items|)]);
      ChildrenOverlay(prefix, v, 0, map[][SizeKey(prefix) := NatToString(|items|)]);
      assert map[][SizeKey(prefix) := NatToString(|items|)] == s;
      assert m[SizeKey(prefix) := NatToString(|items|)] == m + s;
      UnionAssociative(m, s, FlattenedChildren(prefix, v, 0, map[]));
  }

  lemma {:induction false} ChildrenOverlay(prefix: string, v: Value, i: nat, m: map<string, string>)
    requires v.KeyedMap? || v.List?
    requires i <= Width(v)
    ensures FlattenedChildren(prefix, v, i, m) == m + FlattenedChildren(prefix, v, i, map[])
    decreases v, 0, Width(v) - i
  {
    if i == Width(v) {
      assert m + map[] == m;
    } else {
      var q := ChildKey(prefix, v, i);
      var c := if v.KeyedMap? then v.entries[i].value else v.items[i];
      var after := FlattenedChildren(prefix, v, i + 1, map[]);
      FlattenedOverlay(q, c, m);
      ChildrenOverlay(prefix, v, i + 1, Flattened(q, c, m));
      ChildrenOverlay(prefix, v, i + 1, Flattened(q, c, map[]));
      UnionAssociative(m, Produced(q, c), after);
    }
  }

  lemma UnionAssociative(a: map<string, string>, b: map<string, string>, c: map<string, string>)
    ensures (a + b) + c == a + (b + c)
  {
  }

  lemma UnderChild(prefix: string, s: string, k: string)
    requires Under(prefix + "." + s, k)
    ensures Under(prefix, k)
  {
    var q := prefix + "." + s;
    assert q[..|prefix|] == prefix && q[|prefix|] == '.';
    if k != q {
      assert k[..|q|] == q;
      assert k[..|prefix|] == q[..|prefix|];
    }
  }

  /** Every key flattening writes is the prefix itself or lies below it. */
  lemma {:induction false} ProducedUnder(prefix: string, v: Value)
    ensures forall k :: k in Produced(prefix, v) ==> Under(prefix, k)
    decreases v, 1
  {
    match v
    case Scalar(_) =>
    case StringMap(_) =>
    case KeyedMap(_) =>
      ChildrenUnder(prefix, v, 0);
    case List(items) =>
      var s := map[][SizeKey(prefix) := NatToString(|items|)];
      ChildrenOverlay(prefix, v, 0, s);
      ChildrenUnder(prefix, v, 0);
      assert Under(prefix, SizeKey(prefix)) by {
        assert SizeKey(prefix)[..|prefix|] == prefix;
      }
  }

  lemma {:induction false} ChildrenUnder(prefix: string, v: Value, i: nat)
    requires v.KeyedMap? || v.List?
    requires i <= Width(v)
    ensures forall k :: k in FlattenedChildren(prefix, v, i, map[]) ==> Under(prefix, k)
    decreases v, 0, Width(v) - i
  {
    if i < Width(v) {
      var c := if v.KeyedMap? then v.entries[i].value else v.items[i];
      var s := ChildName(v, i);
      ChildrenOverlay(prefix, v, i + 1, Produced(ChildKey(prefix, v, i), c));
      ProducedUnder(ChildKey(prefix, v, i), c);
      ChildrenUnder(prefix, v, i + 1);
      forall k | k in Produced(ChildKey(prefix, v, i), c)
        ensures Under(prefix, k)
      {
        UnderChild(prefix, s, k);
      }
    }
  }

  /** Keys that do not lie under the prefix keep their presence and their value. */
  lemma FlattenFrame(prefix: string, v: Value, m: map<string, string>, k: string)
    requires !Under(prefix, k)
    ensures k in Flattened(prefix, v, m) <==> k in m
    ensures k in m ==> Flattened(prefix, v, m)[k] == m[k]
  {
    FlattenedOverlay(prefix, v, m);
    ProducedUnder(prefix, v);
  }

  /** A scalar writes exactly one entry: the prefix, mapped to its text. */
  lemma ScalarEntry(prefix: string, t: string)
    ensures Produced(prefix, Scalar(t)) == map[prefix := t]
  {
  }

  /** An empty list writes only `prefix.size` = "0". */
  lemma EmptyListEntry(prefix: string)
    ensures Produced(prefix, List([])) == map[SizeKey(prefix) := "0"]
  {
  }

  /**
   * The children of a map or list, flattened from index i on, write the union
   * of what each child writes; where several write one key, the last wins.
   */
  lemma {:induction false} ChildrenCover(prefix: string, v: Value, i: nat)
    requires v.KeyedMap? || v.List?
    requires i <= Width(v)
    ensures forall j, k :: i <= j < Width(v) && k in ChildProduced(prefix, v, j) ==>
      k in FlattenedChildren(prefix, v, i, map[])
    decreases Width(v) - i
  {
    if i < Width(v) {
      var c := if v.KeyedMap? then v.entries[i].value else v.items[i];
      assert c == Child(v, i);
      var here := ChildProduced(prefix, v, i);
      ChildrenOverlay(prefix, v, i + 1, here);
      ChildrenCover(prefix, v, i + 1);
      assert FlattenedChildren(prefix, v, i, map[]) == here + FlattenedChildren(prefix, v, i + 1, map[]);
    }
  }

  lemma {:induction false} ChildrenSources(prefix: string, v: Value, i: nat)
    requires v.KeyedMap? || v.List?
    requires i <= Width(v)
    ensures forall k :: k in FlattenedChildren(prefix, v, i, map[]) ==>
      exists j :: i <= j < Width(v) && k in ChildProduced(prefix, v, j)
    decreases Width(v) - i
  {
    if i < Width(v) {
      var c := if v.KeyedMap? then v.entries[i].value else v.items[i];
      assert c == Child(v, i);
      var here := ChildProduced(prefix, v, i);
      ChildrenOverlay(prefix, v, i + 1, here);
      ChildrenSources(prefix, v, i + 1);
      assert FlattenedChildren(prefix, v, i, map[]) == here + FlattenedChildren(prefix, v, i + 1, map[]);
    }
  }

  lemma {:induction false} ChildrenLastWriter(prefix: string, v: Value, i: nat)
    requires v.KeyedMap? || v.List?
    requires i <= Width(v)
    ensures forall j, k :: (i <= j < Width(v) && k in ChildProduced(prefix, v, j) &&
      (forall j' :: j < j' < Width(v) ==> k !in ChildProduced(prefix, v, j'))) ==>
        k in FlattenedChildren(prefix, v, i, map[]) &&
        FlattenedChildren(prefix, v, i, map[])[k] == ChildProduced(prefix, v, j)[k]
    decreases Width(v) - i
  {
    if i < Width(v) {
      var c := if v.KeyedMap? then v.entries[i].value else v.items[i];
      assert c == Child(v, i);
      var here := ChildProduced(prefix, v, i);
      ChildrenOverlay(prefix, v, i + 1, here);
      ChildrenLastWriter(prefix, v, i + 1);
      ChildrenSources(prefix, v, i + 1);
      assert FlattenedChildren(prefix, v, i, map[]) == here + FlattenedChildren(prefix, v, i + 1, map[]);
    }
  }

  lemma DotFreeSeparated(prefix: string, a: string, b: string, k: string)
    requires a != b && DotFree(a) && DotFree(b)
    requires Under(prefix + "." + a, k)
    ensures !Under(prefix + "." + b, k)
  {
    var pa, pb := prefix + "." + a, prefix + "." + b;
    assert k[..|pa|] == pa;
    if |pa| == |pb| {
      assert pa[|prefix| + 1..] == a;
      assert pb[|prefix| + 1..] == b;
    } else if |pa| < |pb| {
      if |k| >= |pb| {
        assert k[|pa|] == '.';
        assert pb[|pa|] == b[|pa| - |prefix| - 1];
      }
    } else {
      assert pa[|pb|] == a[|pb| - |prefix| - 1];
      assert k[|pb|] == pa[|pb|];
    }
  }

  lemma DigitsDotFree(s: string)
    requires AllDigits(s)
    ensures DotFree(s)
  {
  }

  /** Children names that are distinct and free of '.' keep what each child writes apart. */
  predicate NamesSeparate(v: Value)
    requires v.KeyedMap? || v.List?
  {
    (forall j :: 0 <= j < Width(v) ==> DotFree(ChildName(v, j))) &&
    (forall j, j' :: 0 <= j < j' < Width(v) ==> ChildName(v, j) != ChildName(v, j'))
  }

  /** When names are separate, every child's writes survive the later children intact. */
  lemma ChildrenIntact(prefix: string, v: Value)
    requires v.KeyedMap? || v.List?
    requires NamesSeparate(v)
    ensures forall j, k :: 0 <= j < Width(v) && k in ChildProduced(prefix, v, j) ==>
      k in FlattenedChildren(prefix, v, 0, map[]) &&
      FlattenedChildren(prefix, v, 0, map[])[k] == ChildProduced(prefix, v, j)[k]
  {
    ChildrenCover(prefix, v, 0);
    ChildrenSources(prefix, v, 0);
    ChildrenLastWriter(prefix, v, 0);
    forall j, k | 0 <= j < Width(v) && k in ChildProduced(prefix, v, j)
      ensures forall j' :: j < j' < Width(v) ==> k !in ChildProduced(prefix, v, j')
    {
      ProducedUnder(ChildKey(prefix, v, j), Child(v, j));
      forall j' | j < j' < Width(v)
        ensures k !in ChildProduced(prefix, v, j')
      {
        ProducedUnder(ChildKey(prefix, v, j'), Child(v, j'));
        DotFreeSeparated(prefix, ChildName(v, j), ChildName(v, j'), k);
      }
    }
  }

  lemma NatToStringDistinct(a: nat, b: nat)
    requires a != b
    ensures NatToString(a) != NatToString(b)
  {
    if NatToString(a) == NatToString(b) {
      NatToStringInjective(a, b);
    }
  }

  lemma ListNamesSeparate(items: seq<Value>)
    ensures NamesSeparate(List(items))
  {
    var v := List(items);
    forall j | 0 <= j < |items|
      ensures DotFree(ChildName(v, j))
    {
      DigitsDotFree(NatToString(j));
    }
    forall j, j' | 0 <= j < j' < |items|
      ensures ChildName(v, j) != ChildName(v, j')
    {
      NatToStringDistinct(j, j');
    }
  }

  /** The size entry lies under none of the elements. */
  lemma SizeKeySeparate(prefix: string, items: seq<Value>)
    ensures forall i :: 0 <= i < |items| ==> SizeKey(prefix) !in Produced(ItemKey(prefix, i), items[i])
  {
    forall i | 0 <= i < |items|
      ensures SizeKey(prefix) !in Produced(ItemKey(prefix, i), items[i])
    {
      ProducedUnder(ItemKey(prefix, i), items[i]);
      var d := NatToString(i);
      DigitsDotFree(d);
      assert !IsDigit("size"[0]);
      assert "size" != d;
      assert Under(prefix + "." + "size", SizeKey(prefix));
      DotFreeSeparated(prefix, "size", d, SizeKey(prefix));
    }
  }

  /** A list writes `prefix.size` with its length, which no element overwrites. */
  lemma ListSizeEntry(prefix: string, items: seq<Value>)
    ensures SizeKey(prefix) in Produced(prefix, List(items))
    ensures Produced(prefix, List(items))[SizeKey(prefix)] == NatToString(|items|)
  {
    var v := List(items);
    var s := map[][SizeKey(prefix) := NatToString(|items|)];
    var rest := FlattenedChildren(prefix, v, 0, map[]);
    ChildrenOverlay(prefix, v, 0, s);
    ChildrenCover(prefix, v, 0);
    ChildrenSources(prefix, v, 0);
    ChildrenLastWriter(prefix, v, 0);
    SizeKeySeparate(prefix, items);
  }

  /** For every element i, a list holds exactly what that element writes at `prefix.i`. */
  lemma ListItemEntries(prefix: string, items: seq<Value>)
    ensures forall i, k :: 0 <= i < |items| && k in Produced(ItemKey(prefix, i), items[i]) ==>
      k in Produced(prefix, List(items)) && Produced(prefix, List(items))[k] == Produced(ItemKey(prefix, i), items[i])[k]
  {
    var v := List(items);
    var s := map[][SizeKey(prefix) := NatToString(|items|)];
    ChildrenOverlay(prefix, v, 0, s);
    ListNamesSeparate(items);
    ChildrenIntact(prefix, v);
    forall i, k | 0 <= i < |items| && k in Produced(ItemKey(prefix, i), items[i])
      ensures k in Produced(prefix, v) && Produced(prefix, v)[k] == Produced(ItemKey(prefix, i), items[i])[k]
    {
      assert ChildProduced(prefix, v, i) == Produced(ItemKey(prefix, i), items[i]);
    }
  }

  /** A list writes nothing but `prefix.size` and what its elements write. */
  lemma ListOnlyEntries(prefix: string, items: seq<Value>)
    ensures forall k :: k in Produced(prefix, List(items)) ==>
      k == SizeKey(prefix) || exists i :: 0 <= i < |items| && k in Produced(ItemKey(prefix, i), items[i])
  {
    var v := List(items);
    var s := map[][SizeKey(prefix) := NatToString(|items|)];
    ChildrenOverlay(prefix, v, 0, s);
    ChildrenCover(prefix, v, 0);
    ChildrenSources(prefix, v, 0);
    ChildrenLastWriter(prefix, v, 0);
    forall k | k in Produced(prefix, v) && k != SizeKey(prefix)
      ensures exists i :: 0 <= i < |items| && k in Produced(ItemKey(prefix, i), items[i])
    {
      var j :| 0 <= j < |items| && k in ChildProduced(prefix, v, j);
      assert ChildProduced(prefix, v, j) == Produced(ItemKey(prefix, j), items[j]);
    }
  }

  /**
   * An interface-keyed map writes exactly the union of what its entries write
   * under `prefix.key`, whatever order `range` visits them in; when its keys
   * are distinct and contain no '.', every entry's writes survive intact.
   */
  lemma KeyedMapEntries(prefix: string, es: seq<Entry>)
    ensures forall j, k :: 0 <= j < |es| && k in Produced(prefix + "." + es[j].key, es[j].value) ==>
      k in Produced(prefix, KeyedMap(es))
    ensures forall k :: k in Produced(prefix, KeyedMap(es)) ==>
      exists j :: 0 <= j < |es| && k in Produced(prefix + "." + es[j].key, es[j].value)
    ensures NamesSeparate(KeyedMap(es)) ==>
      forall j, k :: 0 <= j < |es| && k in Produced(prefix + "." + es[j].key, es[j].value) ==>
        Produced(prefix, KeyedMap(es))[k] == Produced(prefix + "." + es[j].key, es[j].value)[k]
  {
    var v := KeyedMap(es);
    var r := Produced(prefix, v);
    assert r == FlattenedChildren(prefix, v, 0, map[]);
    ChildrenCover(prefix, v, 0);
    ChildrenSources(prefix, v, 0);
    ChildrenLastWriter(prefix, v, 0);
    forall j, k | 0 <= j < |es| && k in Produced(prefix + "." + es[j].key, es[j].value)
      ensures k in r
    {
      assert ChildProduced(prefix, v, j) == Produced(prefix + "." + es[j].key, es[j].value);
    }
    forall k | k in r
      ensures exists j :: 0 <= j < |es| && k in Produced(prefix + "." + es[j].key, es[j].value)
    {
      var j :| 0 <= j < |es| && k in ChildProduced(prefix, v, j);
      assert ChildProduced(prefix, v, j) == Produced(prefix + "." + es[j].key, es[j].value);
    }
    if NamesSeparate(v) {
      ChildrenIntact(prefix, v);
      forall j, k | 0 <= j < |es| && k in Produced(prefix + "." + es[j].key, es[j].value)
        ensures r[k] == Produced(prefix + "." + es[j].key, es[j].value)[k]
      {
        assert ChildProduced(prefix, v, j) == Produced(prefix + "." + es[j].key, es[j].value);
      }
    }
  }

  /** Flattening the top-level entries into m is m overlaid with what they write on their own. */
  lemma {:induction false} TopOverlay(es: seq<Entry>, m: map<string, string>)
    ensures FlattenedTop(es, m) == m + FlattenedTop(es, map[])
    decreases |es|
  {
    if es == [] {
      assert m + map[] == m;
    } else {
      var e := es[0];
      FlattenedOverlay(e.key, e.value, m);
      TopOverlay(es[1..], Flattened(e.key, e.value, m));
      TopOverlay(es[1..], Flattened(e.key, e.value, map[]));
      FlattenedOverlay(e.key, e.value, map[]);
      assert map[] + Produced(e.key, e.value) == Produced(e.key, e.value);
      UnionAssociative(m, Produced(e.key, e.value), FlattenedTop(es[1..], map[]));
    }
  }

  // ---------------------------------------------------------------------
  // What the top-level config entries write.

  /** Top-level keys that are distinct and free of '.' keep what each entry writes apart. */
  predicate KeysSeparate(es: seq<Entry>) {
    (forall j :: 0 <= j < |es| ==> DotFree(es[j].key)) &&
    (forall j, j' :: 0 <= j < j' < |es| ==> es[j].key != es[j'].key)
  }

  /** The first entry's writes, overlaid by what the rest write. */
  lemma TopSplit(es: seq<Entry>)
    requires es != []
    ensures FlattenedTop(es, map[]) == Produced(es[0].key, es[0].value) + FlattenedTop(es[1..], map[])
  {
    TopOverlay(es[1..], Flattened(es[0].key, es[0].value, map[]));
  }

  lemma KeysApart(a: string, b: string, k: string)
    requires a != b && DotFree(a) && DotFree(b)
    requires Under(a, k)
    ensures !Under(b, k)
  {
    if |a| < |b| {
      assert |k| > |a| ==> k[|a|] == '.';
    } else if |b| < |a| {
      assert |k| > |b| && k[..|b|] == b ==> a[|b|] == k[|b|];
    } else {
      assert |k| >= |a| ==> k[..|a|] == a;
    }
  }

  /** Everything an entry writes is present after all the entries are flattened. */
  lemma {:induction false} TopCover(es: seq<Entry>)
    ensures forall j, k :: 0 <= j < |es| && k in Produced(es[j].key, es[j].value) ==> k in FlattenedTop(es, map[])
    decreases |es|
  {
    if es != [] {
      TopSplit(es);
      TopCover(es[1..]);
      assert forall j :: 0 < j < |es| ==> es[j] == es[1..][j - 1];
    }
  }

  /** Every key present after flattening was written by some entry. */
  lemma {:induction false} TopSources(es: seq<Entry>)
    ensures forall k :: k in FlattenedTop(es, map[]) ==> exists j :: 0 <= j < |es| && k in Produced(es[j].key, es[j].value)
    decreases |es|
  {
    if es != [] {
      TopSplit(es);
      TopSources(es[1..]);
      forall k | k in FlattenedTop(es, map[])
        ensures exists j :: 0 <= j < |es| && k in Produced(es[j].key, es[j].value)
      {
        if k !in Produced(es[0].key, es[0].value) {
          var j :| 0 <= j < |es[1..]| && k in Produced(es[1..][j].key, es[1..][j].value);
          assert es[1..][j] == es[j + 1];
        }
      }
    }
  }

  /** With separate keys, every entry's writes survive the later entries intact. */
  lemma {:induction false} TopIntact(es: seq<Entry>)
    requires KeysSeparate(es)
    ensures forall j, k :: 0 <= j < |es| && k in Produced(es[j].key, es[j].value) ==>
      k in FlattenedTop(es, map[]) && FlattenedTop(es, map[])[k] == Produced(es[j].key, es[j].value)[k]
    decreases |es|
  {
    if es != [] {
      var rest := es[1..];
      TopSplit(es);
      TopIntact(rest);
      TopSources(rest);
      forall j, k | 0 <= j < |es| && k in Produced(es[j].key, es[j].value)
        ensures k in FlattenedTop(es, map[]) && FlattenedTop(es, map[])[k] == Produced(es[j].key, es[j].value)[k]
      {
        if j == 0 {
          if k in FlattenedTop(rest, map[]) {
            var i :| 0 <= i < |rest| && k in Produced(rest[i].key, rest[i].value);
            ProducedUnder(es[0].key, es[0].value);
            ProducedUnder(rest[i].key, rest[i].value);
            assert rest[i] == es[i + 1];
            KeysApart(es[0].key, rest[i].key, k);
          }
        } else {
          assert es[j] == rest[j - 1];
        }
      }
    }
  }

  /**
   * The top-level config writes exactly the union of what its entries write
   * under their own keys, whatever order `range` visits them in; when the
   * keys are distinct and contain no '.', every entry's writes survive.
   */
  lemma TopEntries(es: seq<Entry>)
    ensures forall j, k :: 0 <= j < |es| && k in Produced(es[j].key, es[j].value) ==> k in FlattenedTop(es, map[])
    ensures forall k :: k in FlattenedTop(es, map[]) ==> exists j :: 0 <= j < |es| && k in Produced(es[j].key, es[j].value)
    ensures KeysSeparate(es) ==>
      forall j, k :: 0 <= j < |es| && k in Produced(es[j].key, es[j].value) ==>
        FlattenedTop(es, map[])[k] == Produced(es[j].key, es[j].value)[k]
  {
    TopCover(es);
    TopSources(es);
    if KeysSeparate(es) {
      TopIntact(es);
    }
  }
}
