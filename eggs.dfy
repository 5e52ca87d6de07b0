/**
 * The egg catalogue: eggs grouped by category and subcategory, both levels
 * kept in `String.compareTo` order as Java's TreeMap keeps them, and the
 * eggs of one subcategory in the order they were loaded.
 */
module Eggs {
  import opened Outcomes
  import opened Entities

  // ---------------------------------------------------------------------
  // Key order

  /** `a.compareTo(b) < 0`: the first differing character decides; a proper prefix comes first. */
  predicate Less(a: string, b: string)
    decreases |a|
  {
    if a == [] then b != []
    else b != [] && (a[0] < b[0] || (a[0] == b[0] && Less(a[1..], b[1..])))
  }

  lemma {:induction false} LessIrreflexive(a: string)
    ensures !Less(a, a)
    decreases |a|
  {
    if a != [] {
      LessIrreflexive(a[1..]);
    }
  }

  lemma {:induction false} LessTransitive(a: string, b: string, c: string)
    requires Less(a, b) && Less(b, c)
    ensures Less(a, c)
    decreases |a|
  {
    if a != [] && a[0] == b[0] && b[0] == c[0] {
      LessTransitive(a[1..], b[1..], c[1..]);
    }
  }

  lemma {:induction false} LessTotal(a: string, b: string)
    ensures a == b || Less(a, b) || Less(b, a)
    decreases |a|
  {
    if a != [] && b != [] && a[0] == b[0] {
      LessTotal(a[1..], b[1..]);
      if a[1..] == b[1..] {
        assert a == [a[0]] + a[1..] && b == [b[0]] + b[1..];
      }
    }
  }

  // ---------------------------------------------------------------------
  // Sorted association lists (a TreeMap as its entries in key order)

  predicate SortedKeys<V>(m: seq<(string, V)>)
  {
    forall i, j :: 0 <= i < j < |m| ==> Less(m[i].0, m[j].0)
  }

  /** `get`. */
  function Lookup<V>(m: seq<(string, V)>, k: string): Option<V>
    decreases |m|
  {
    if m == [] then None else if m[0].0 == k then Some(m[0].1) else Lookup(m[1..], k)
  }

  /** `put`: replaces the value of `k`, or inserts `(k, v)` in key order. */
  function Upsert<V>(m: seq<(string, V)>, k: string, v: V): seq<(string, V)>
    decreases |m|
  {
    if m == [] then [(k, v)]
    else if m[0].0 == k then [(k, v)] + m[1..]
    else if Less(k, m[0].0) then [(k, v)] + m
    else [m[0]] + Upsert(m[1..], k, v)
  }

  /** After `put`, `k` maps to `v` and every other key keeps its value. */
  lemma {:induction false} LookupUpsert<V>(m: seq<(string, V)>, k: string, v: V, key: string)
    ensures Lookup(Upsert(m, k, v), key) == if key == k then Some(v) else Lookup(m, key)
    decreases |m|
  {
    if m != [] && m[0].0 != k && !Less(k, m[0].0) {
      LookupUpsert(m[1..], k, v, key);
    }
  }

  /** `put` adds at most the one entry `(k, v)`; every other entry comes from the map. */
  ghost predicate DrawnFrom<V>(r: seq<(string, V)>, m: seq<(string, V)>, extra: (string, V))
  {
    forall i :: 0 <= i < |r| ==> r[i] == extra || r[i] in m
  }

  lemma {:induction false} UpsertEntries<V>(m: seq<(string, V)>, k: string, v: V)
    ensures DrawnFrom(Upsert(m, k, v), m, (k, v))
    decreases |m|
  {
    if m != [] && m[0].0 != k && !Less(k, m[0].0) {
      UpsertEntries(m[1..], k, v);
      var r := Upsert(m, k, v);
      forall i | 0 <= i < |r|
        ensures r[i] == (k, v) || r[i] in m
      {
        if i > 0 {
          var rest := Upsert(m[1..], k, v);
          assert r[i] == rest[i - 1];
          if rest[i - 1] != (k, v) {
            assert rest[i - 1] in m[1..];
            var t :| 0 <= t < |m| - 1 && m[1..][t] == rest[i - 1];
            assert m[t + 1] == r[i];
          }
        }
      }
    }
  }

  /** `put` keeps the keys in order. */
  lemma {:induction false} UpsertSorted<V>(m: seq<(string, V)>, k: string, v: V)
    requires SortedKeys(m)
    ensures SortedKeys(Upsert(m, k, v))
    decreases |m|
  {
    var r := Upsert(m, k, v);
    if m == [] {
    } else if m[0].0 == k {
      forall i, j | 0 <= i < j < |r|
        ensures Less(r[i].0, r[j].0)
      {
        assert r[i].0 == m[i].0 && r[j].0 == m[j].0;
      }
    } else if Less(k, m[0].0) {
      forall i, j | 0 <= i < j < |r|
        ensures Less(r[i].0, r[j].0)
      {
        if i == 0 {
          if j > 1 {
            LessTransitive(k, m[0].0, m[j - 1].0);
          }
        }
      }
    } else {
      LessTotal(k, m[0].0);
      UpsertSorted(m[1..], k, v);
      UpsertEntries(m[1..], k, v);
      var rest := Upsert(m[1..], k, v);
      forall i, j | 0 <= i < j < |r|
        ensures Less(r[i].0, r[j].0)
      {
        if i == 0 {
          assert r[j] == rest[j - 1];
          if r[j] != (k, v) {
            assert rest[j - 1] in m[1..];
            var t :| 0 <= t < |m| - 1 && m[1..][t] == rest[j - 1];
            assert m[t + 1] == r[j];
          }
        } else {
          assert r[i] == rest[i - 1] && r[j] == rest[j - 1];
        }
      }
    }
  }

  lemma {:induction false} LookupFound<V>(m: seq<(string, V)>, k: string)
    requires Lookup(m, k).Some?
    ensures (k, Lookup(m, k).value) in m
    decreases |m|
  {
    if m[0].0 != k {
      LookupFound(m[1..], k);
    }
  }

  // ---------------------------------------------------------------------
  // The catalogue

  type Subcategories = seq<(string, seq<GameEgg>)>
  type Catalogue = seq<(string, Subcategories)>

  /** Both levels in key order. */
  ghost predicate ValidCatalogue(c: Catalogue)
  {
    SortedKeys(c) && forall i :: 0 <= i < |c| ==> SortedKeys(c[i].1)
  }

  function SubcategoriesOf(c: Catalogue, category: string): Subcategories
  {
    match Lookup(c, category)
    case None => []
    case Some(subs) => subs
  }

  /** The eggs filed under `category` -> `subcategory` (empty when there is no such entry). */
  function EggsIn(c: Catalogue, category: string, subcategory: string): seq<GameEgg>
  {
    match Lookup(SubcategoriesOf(c, category), subcategory)
    case None => []
    case Some(eggs) => eggs
  }

  /** `computeIfAbsent(category, TreeMap).computeIfAbsent(subcategory, ArrayList).add(egg)`. */
  function AddEgg(c: Catalogue, category: string, subcategory: string, egg: GameEgg): Catalogue
  {
    var subs := SubcategoriesOf(c, category);
    Upsert(c, category, Upsert(subs, subcategory, EggsIn(c, category, subcategory) + [egg]))
  }

  /**
   * Adding an egg appends it at the end of its own subcategory's list and
   * leaves every other list as it was: no egg is ever removed or reordered.
   */
  lemma AddEggAppends(c: Catalogue, category: string, subcategory: string, egg: GameEgg, cat: string, sub: string)
    ensures EggsIn(AddEgg(c, category, subcategory, egg), cat, sub) ==
      EggsIn(c, cat, sub) + (if cat == category && sub == subcategory then [egg] else [])
  {
    var subs := SubcategoriesOf(c, category);
    var newSubs := Upsert(subs, subcategory, EggsIn(c, category, subcategory) + [egg]);
    LookupUpsert(c, category, newSubs, cat);
    LookupUpsert(subs, subcategory, EggsIn(c, category, subcategory) + [egg], sub);
  }

  /** Adding an egg keeps both levels of the catalogue in key order. */
  lemma AddEggKeepsValid(c: Catalogue, category: string, subcategory: string, egg: GameEgg)
    requires ValidCatalogue(c)
    ensures ValidCatalogue(AddEgg(c, category, subcategory, egg))
  {
    var subs := SubcategoriesOf(c, category);
    if Lookup(c, category).Some? {
      LookupFound(c, category);
    }
    assert SortedKeys(subs);
    var newSubs := Upsert(subs, subcategory, EggsIn(c, category, subcategory) + [egg]);
    UpsertSorted(subs, subcategory, EggsIn(c, category, subcategory) + [egg]);
    UpsertSorted(c, category, newSubs);
    UpsertEntries(c, category, newSubs);
    var r := Upsert(c, category, newSubs);
    forall i | 0 <= i < |r|
      ensures SortedKeys(r[i].1)
    {
      if r[i] != (category, newSubs) {
        var t :| 0 <= t < |c| && c[t] == r[i];
      }
    }
  }

  /** The catalogue's eggs as `values().stream().flatMap(...)` visits them: by category, subcategory, then load order. */
  function Flatten(c: Catalogue): seq<GameEgg>
    decreases |c|
  {
    if c == [] then [] else FlattenSubcategories(c[0].1) + Flatten(c[1..])
  }

  function FlattenSubcategories(subs: Subcategories): seq<GameEgg>
    decreases |subs|
  {
    if subs == [] then [] else subs[0].1 + FlattenSubcategories(subs[1..])
  }

  /** The position of the first egg whose Docker image is `image`, if any. */
  function FirstWithImage(eggs: seq<GameEgg>, image: string): (r: Option<nat>)
    ensures r.None? <==> forall i :: 0 <= i < |eggs| ==> eggs[i].dockerImage != Some(image)
    ensures r.Some? ==> r.value < |eggs| && eggs[r.value].dockerImage == Some(image)
    ensures r.Some? ==> forall i :: 0 <= i < r.value ==> eggs[i].dockerImage != Some(image)
    decreases |eggs|
  {
    if eggs == [] then None
    else if eggs[0].dockerImage == Some(image) then Some(0)
    else
      match FirstWithImage(eggs[1..], image)
      case None => None
      case Some(i) => Some(i + 1)
  }

  /** The lookup both controllers do: the first egg of the catalogue, in iteration order, with that image. */
  function FindEgg(c: Catalogue, image: string): Option<GameEgg>
  {
    var eggs := Flatten(c);
    match FirstWithImage(eggs, image)
    case None => None
    case Some(i) => Some(eggs[i])
  }

  // ---------------------------------------------------------------------
  // capitalize

  /**
   * `String.toUpperCase` of one character, for ASCII and Latin-1: letters
   * move to their capital, `ß` becomes `SS`, `ÿ` and `µ` leave Latin-1.
   */
  function UpperCase(c: char): (r: string)
    ensures 1 <= |r| <= 2
  {
    if 'a' <= c <= 'z' then [(c as int - 32) as char]
    else if c == 'µ' then "\U{039C}"
    else if c == 'ß' then "SS"
    else if 'à' <= c <= 'þ' && c != '÷' then [(c as int - 32) as char]
    else if c == 'ÿ' then "\U{0178}"
    else [c]
  }

  /** `capitalize`: the first character upper-cased, the rest kept; the empty string unchanged. */
  function Capitalize(s: string): (r: string)
    ensures s == [] <==> r == []
    ensures s != [] ==> r == UpperCase(s[0]) + s[1..]
  {
    if s == [] then s else UpperCase(s[0]) + s[1..]
  }

  lemma UpperCaseFixed(c: char)
    ensures UpperCase(UpperCase(c)[0]) == [UpperCase(c)[0]]
  {
  }

  /** Capitalizing twice is capitalizing once. */
  lemma CapitalizeIdempotent(s: string)
    ensures Capitalize(Capitalize(s)) == Capitalize(s)
  {
    if s != [] {
      var u := UpperCase(s[0]);
      var r := u + s[1..];
      UpperCaseFixed(s[0]);
      assert r[0] == u[0];
      assert r[1..] == u[1..] + s[1..];
      assert [u[0]] + u[1..] == u;
    }
  }

  /** A lower-case ASCII initial becomes its capital and nothing else changes. */
  lemma CapitalizeAscii(s: string)
    requires s != [] && 'a' <= s[0] <= 'z'
    ensures |Capitalize(s)| == |s| && Capitalize(s)[0] == (s[0] as int - 32) as char
    ensures Capitalize(s)[1..] == s[1..]
  {
  }

  // ---------------------------------------------------------------------
  // Loading

  /**
   * One scanned `eggs/<category>/<subcategory>/<file>.json` resource: its
   * two directory names and the egg read from it, or `None` when reading,
   * parsing or locating it threw.
   */
  datatype EggFile = EggFile(category: string, subcategory: string, egg: Option<GameEgg>)

  /** The catalogue after loading `files` in order; the first failure ends loading. */
  function LoadAll(c: Catalogue, files: seq<EggFile>): Catalogue
    decreases |files|
  {
    if files == [] then c
    else match files[0].egg
      case None => c
      case Some(e) => LoadAll(AddEgg(c, Capitalize(files[0].category), Capitalize(files[0].subcategory), e), files[1..])
  }

  /** The eggs of `files` that land in `cat` -> `sub`, in order, up to the first failure. */
  function LoadedInto(files: seq<EggFile>, cat: string, sub: string): seq<GameEgg>
    decreases |files|
  {
    if files == [] || files[0].egg.None? then []
    else
      (if Capitalize(files[0].category) == cat && Capitalize(files[0].subcategory) == sub
       then [files[0].egg.value] else [])
      + LoadedInto(files[1..], cat, sub)
  }

  /**
   * Loading keeps every egg already filed and appends, to each
   * subcategory, the eggs loaded into it in resource order.
   */
  lemma {:induction false} LoadAllAppends(c: Catalogue, files: seq<EggFile>, cat: string, sub: string)
    ensures EggsIn(LoadAll(c, files), cat, sub) == EggsIn(c, cat, sub) + LoadedInto(files, cat, sub)
    decreases |files|
  {
    if files != [] && files[0].egg.Some? {
      var f := files[0];
      var next := AddEgg(c, Capitalize(f.category), Capitalize(f.subcategory), f.egg.value);
      var here := if Capitalize(f.category) == cat && Capitalize(f.subcategory) == sub then [f.egg.value] else [];
      assert LoadAll(c, files) == LoadAll(next, files[1..]);
      assert LoadedInto(files, cat, sub) == here + LoadedInto(files[1..], cat, sub);
      AddEggAppends(c, Capitalize(f.category), Capitalize(f.subcategory), f.egg.value, cat, sub);
      assert EggsIn(next, cat, sub) == EggsIn(c, cat, sub) + here;
      LoadAllAppends(next, files[1..], cat, sub);
      assert EggsIn(c, cat, sub) + here + LoadedInto(files[1..], cat, sub)
        == EggsIn(c, cat, sub) + (here + LoadedInto(files[1..], cat, sub));
    }
  }

  /** Loading keeps the catalogue in key order at both levels. */
  lemma {:induction false} LoadAllKeepsValid(c: Catalogue, files: seq<EggFile>)
    requires ValidCatalogue(c)
    ensures ValidCatalogue(LoadAll(c, files))
    decreases |files|
  {
    if files != [] && files[0].egg.Some? {
      var f := files[0];
      AddEggKeepsValid(c, Capitalize(f.category), Capitalize(f.subcategory), f.egg.value);
      LoadAllKeepsValid(AddEgg(c, Capitalize(f.category), Capitalize(f.subcategory), f.egg.value), files[1..]);
    }
  }

  /** The catalogue service: `cachedEggs` is filled once at start-up and then only read. */
  class EggService {
    var cachedEggs: Catalogue

    ghost predicate Valid()
      reads this
    {
      ValidCatalogue(cachedEggs)
    }

    constructor ()
      ensures Valid() && cachedEggs == []
    {
      cachedEggs := [];
    }

    /**
     * `init`: `scan` is the resource scan, `None` when the scan itself threw.
     * An empty scan changes nothing; otherwise the files are loaded in
     * order and the first one that fails ends loading, keeping what was
     * loaded before it.
     */
    method Init(scan: Option<seq<EggFile>>)
      requires Valid()
      modifies this
      ensures Valid()
      ensures scan.None? ==> cachedEggs == old(cachedEggs)
      ensures scan.Some? ==> cachedEggs == LoadAll(old(cachedEggs), scan.value)
    {
      if scan.None? || |scan.value| == 0 {
        return;
      }
      var files := scan.value;
      var i := 0;
      while i < |files|
        invariant 0 <= i <= |files|
        invariant Valid()
        invariant LoadAll(cachedEggs, files[i..]) == LoadAll(old(cachedEggs), files)
      {
        var f := files[i];
        assert files[i..][0] == f && files[i..][1..] == files[i + 1..];
        if f.egg.None? {
          return;
        }
        AddEggKeepsValid(cachedEggs, Capitalize(f.category), Capitalize(f.subcategory), f.egg.value);
        cachedEggs := AddEgg(cachedEggs, Capitalize(f.category), Capitalize(f.subcategory), f.egg.value);
        i := i + 1;
      }
    }

    /** `getGroupedEggs`. */
    function GroupedEggs(): Catalogue
      reads this
    {
      cachedEggs
    }
  }
}
