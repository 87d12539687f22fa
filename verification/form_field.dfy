/**
 * The map form field's server-side configuration (the PHP class `Map`):
 * a fluent builder whose setters each overwrite one private field and
 * return the same instance, with `draw()` and `locate()` building their
 * settings by merging caller options over a table of defaults.
 */
module FormField {
  import opened Wrappers
  import opened Dicts

  /** A PHP array key: an integer or a (non-numeric) string. */
  datatype Key = IntKey(n: int) | StrKey(s: string)

  /** The PHP values the configuration holds. */
  datatype Value =
    | Null
    | Bool(b: bool)
    | Int(i: int)
    | Str(s: string)
    | Arr(a: Dict<Key, Value>)

  /** A PHP array: an ordered dictionary from keys to values. */
  type PhpArray = Dict<Key, Value>

  /** A PHP array whose keys are all strings. */
  ghost predicate StringKeyed(a: PhpArray) {
    forall i :: 0 <= i < |a.keys| ==> a.keys[i].StrKey?
  }

  // ---------------------------------------------------------------------
  // array_merge
  // ---------------------------------------------------------------------

  /** The number of integer keys among the first `n` keys of a key list. */
  function IntKeysIn(ks: seq<Key>, n: nat): (c: nat)
    requires n <= |ks|
    ensures c <= n
  {
    if n == 0 then 0
    else IntKeysIn(ks, n - 1) + (if ks[n - 1].IntKey? then 1 else 0)
  }

  /** The number of integer keys in a key list. */
  function IntKeyCount(ks: seq<Key>): nat {
    IntKeysIn(ks, |ks|)
  }

  /** Every integer key of the array is below the number of integer keys
      it has (`IntsInOrder` adds that they are 0, 1, 2, … in key order). */
  ghost predicate Renumbered(a: PhpArray) {
    forall k :: k in a.vals && k.IntKey? ==> 0 <= k.n < IntKeyCount(a.keys)
  }

  /** One entry of an argument of `array_merge` added to the result so far:
      a string key is assigned (overwriting an earlier value in place), an
      integer key is dropped and the value appended under the next index. */
  function MergeEntry(acc: PhpArray, k: Key, v: Value): (r: PhpArray)
    requires acc.Valid()
    ensures r.Valid()
    ensures acc.keys <= r.keys && |r.keys| <= |acc.keys| + 1
    ensures k.StrKey? && k !in acc.vals ==> r.keys == acc.keys + [k]
  {
    match k
    case StrKey(_) => acc.Put(k, v)
    case IntKey(_) => acc.Put(IntKey(IntKeyCount(acc.keys)), v)
  }

  /** The result so far after the first `n` entries of `src` are added. */
  function MergeFrom(acc: PhpArray, src: PhpArray, n: nat): (r: PhpArray)
    requires acc.Valid() && src.Valid() && n <= |src.keys|
    ensures r.Valid()
  {
    if n == 0 then acc
    else
      var k := src.keys[n - 1];
      MergeEntry(MergeFrom(acc, src, n - 1), k, src.vals[k])
  }

  /** PHP's `array_merge($a, $b)`. */
  function ArrayMerge(a: PhpArray, b: PhpArray): (r: PhpArray)
    requires a.Valid() && b.Valid()
    ensures r.Valid()
  {
    MergeFrom(MergeFrom(Empty(), a, |a.keys|), b, |b.keys|)
  }

  /** Whether `x` is among the first `n` keys of `ks`. */
  predicate Among(ks: seq<Key>, n: nat, x: Key)
    requires n <= |ks|
  {
    n > 0 && (ks[n - 1] == x || Among(ks, n - 1, x))
  }

  lemma {:induction false} AmongIndex(ks: seq<Key>, n: nat, x: Key)
    requires n <= |ks|
    ensures Among(ks, n, x) <==> exists i :: 0 <= i < n && ks[i] == x
  {
    if n > 0 {
      AmongIndex(ks, n - 1, x);
    }
  }

  /** One entry sets a string key exactly when it carries that key. */
  lemma MergeEntryStringKey(acc: PhpArray, k: Key, v: Value, s: string)
    requires acc.Valid()
    ensures MergeEntry(acc, k, v).Get(StrKey(s)) == if k == StrKey(s) then Some(v) else acc.Get(StrKey(s))
  {
  }

  /** Adding entries never changes the value of a string key that the added
      entries do not carry, and a string key they carry ends with its value. */
  lemma {:induction false} MergeFromStringKey(acc: PhpArray, src: PhpArray, n: nat, s: string)
    requires acc.Valid() && src.Valid() && n <= |src.keys|
    ensures MergeFrom(acc, src, n).Get(StrKey(s))
         == if Among(src.keys, n, StrKey(s)) then src.Get(StrKey(s)) else acc.Get(StrKey(s))
  {
    if n > 0 {
      MergeFromStringKey(acc, src, n - 1, s);
      var k := src.keys[n - 1];
      MergeEntryStringKey(MergeFrom(acc, src, n - 1), k, src.vals[k], s);
    }
  }

  /** For a string key, `array_merge` takes the value from the second array
      when it has the key, and from the first one otherwise: caller options
      override defaults, omitted keys keep their defaults, unknown keys pass
      through. */
  lemma ArrayMergeStringKey(a: PhpArray, b: PhpArray, s: string)
    requires a.Valid() && b.Valid()
    ensures ArrayMerge(a, b).Get(StrKey(s))
         == if StrKey(s) in b.vals then b.Get(StrKey(s)) else a.Get(StrKey(s))
  {
    a.Domain();
    b.Domain();
    AmongIndex(a.keys, |a.keys|, StrKey(s));
    AmongIndex(b.keys, |b.keys|, StrKey(s));
    MergeFromStringKey(Empty(), a, |a.keys|, s);
    MergeFromStringKey(MergeFrom(Empty(), a, |a.keys|), b, |b.keys|, s);
  }

  /** The values of the integer-keyed entries among the first `n` entries
      of an array, in key order. */
  function IntValuesIn(a: PhpArray, n: nat): (vs: seq<Value>)
    requires a.Valid() && n <= |a.keys|
    ensures |vs| == IntKeysIn(a.keys, n)
  {
    if n == 0 then [] else IntValuesIn(a, n - 1) + IntTail(a, n)
  }

  /** The value the n-th entry contributes: its own when its key is an
      integer, none otherwise. */
  function IntTail(a: PhpArray, n: nat): (vs: seq<Value>)
    requires a.Valid() && 0 < n <= |a.keys|
    ensures |vs| == if a.keys[n - 1].IntKey? then 1 else 0
  {
    if a.keys[n - 1].IntKey? then [a.vals[a.keys[n - 1]]] else []
  }

  /** The values of an array's integer-keyed entries, in key order. */
  function IntValues(a: PhpArray): seq<Value>
    requires a.Valid()
  {
    IntValuesIn(a, |a.keys|)
  }

  /** The integer keys are 0, 1, 2, … in key order: the i-th integer-keyed
      value is stored under index i, and there are no other integer keys. */
  ghost predicate IntsInOrder(a: PhpArray)
    requires a.Valid()
  {
    && Renumbered(a)
    && forall i :: 0 <= i < |IntValues(a)| ==> a.Get(IntKey(i)) == Some(IntValues(a)[i])
  }

  /** Adding entries keeps every integer-keyed entry: each integer key of the
      source adds its value under the next free index, after the ones there
      were, so the integer keys stay 0, 1, 2, … in order. */
  lemma MergeFromIntKeys(acc: PhpArray, src: PhpArray, n: nat)
    requires acc.Valid() && src.Valid() && n <= |src.keys| && IntsInOrder(acc)
    ensures IntsInOrder(MergeFrom(acc, src, n))
    ensures IntValues(MergeFrom(acc, src, n)) == IntValues(acc) + IntValuesIn(src, n)
  {
    MergeFromInOrder(acc, src, n);
    MergeFromIntValues(acc, src, n);
  }

  lemma {:induction false} MergeFromInOrder(acc: PhpArray, src: PhpArray, n: nat)
    requires acc.Valid() && src.Valid() && n <= |src.keys| && IntsInOrder(acc)
    ensures IntsInOrder(MergeFrom(acc, src, n))
  {
    if n > 0 {
      var k := src.keys[n - 1];
      MergeFromInOrder(acc, src, n - 1);
      MergeEntryInts(MergeFrom(acc, src, n - 1), k, src.vals[k]);
    }
  }

  lemma {:induction false} MergeFromIntValues(acc: PhpArray, src: PhpArray, n: nat)
    requires acc.Valid() && src.Valid() && n <= |src.keys| && IntsInOrder(acc)
    ensures IntValues(MergeFrom(acc, src, n)) == IntValues(acc) + IntValuesIn(src, n)
  {
    if n == 0 {
      assert IntValues(acc) + IntValuesIn(src, 0) == IntValues(acc) + [];
    } else {
      MergeFromIntValues(acc, src, n - 1);
      MergeFromStep(acc, src, n);
      ConcatAssoc(IntValues(acc), IntValuesIn(src, n - 1), IntTail(src, n));
    }
  }

  /** The n-th entry appends its value to the integer-keyed values exactly
      when its key is an integer. */
  lemma MergeFromStep(acc: PhpArray, src: PhpArray, n: nat)
    requires acc.Valid() && src.Valid() && 0 < n <= |src.keys| && IntsInOrder(acc)
    ensures IntValues(MergeFrom(acc, src, n)) == IntValues(MergeFrom(acc, src, n - 1)) + IntTail(src, n)
  {
    var k := src.keys[n - 1];
    NextIndexFree(acc, src, n - 1);
    MergeEntryValues(MergeFrom(acc, src, n - 1), k, src.vals[k]);
  }

  /** After entries are added, the next index is not yet a key. */
  lemma NextIndexFree(acc: PhpArray, src: PhpArray, n: nat)
    requires acc.Valid() && src.Valid() && n <= |src.keys| && IntsInOrder(acc)
    ensures IntKey(IntKeyCount(MergeFrom(acc, src, n).keys)) !in MergeFrom(acc, src, n).vals
  {
    MergeFromInOrder(acc, src, n);
  }

  lemma ConcatAssoc(a: seq<Value>, b: seq<Value>, c: seq<Value>)
    ensures (a + b) + c == a + (b + c)
  {
  }

  /** One entry adds its value after the integer-keyed values there were
      exactly when its key is an integer, provided the next index is free. */
  lemma MergeEntryValues(acc: PhpArray, k: Key, v: Value)
    requires acc.Valid() && IntKey(IntKeyCount(acc.keys)) !in acc.vals
    ensures IntValues(MergeEntry(acc, k, v)) == IntValues(acc) + if k.IntKey? then [v] else []
  {
    var m := |acc.keys|;
    var r := MergeEntry(acc, k, v);
    IntValuesInSame(acc, r, m);
  }

  /** One entry keeps the integer keys in order. */
  lemma MergeEntryInts(acc: PhpArray, k: Key, v: Value)
    requires acc.Valid() && IntsInOrder(acc)
    ensures IntsInOrder(MergeEntry(acc, k, v))
  {
    if k.StrKey? {
      MergeEntryStrKey(acc, k, v);
    } else {
      MergeEntryIntKey(acc, k, v);
    }
  }

  /** Two arrays that list the same first `n` keys, with the same values
      under the integer keys among them, have the same integer-keyed values
      there. */
  lemma {:induction false} IntValuesInSame(d1: PhpArray, d2: PhpArray, n: nat)
    requires d1.Valid() && d2.Valid() && n <= |d1.keys| && n <= |d2.keys|
    requires forall j :: 0 <= j < n ==> d1.keys[j] == d2.keys[j]
    requires forall j :: 0 <= j < n && d1.keys[j].IntKey? ==> d1.Get(d1.keys[j]) == d2.Get(d1.keys[j])
    ensures IntValuesIn(d1, n) == IntValuesIn(d2, n)
  {
    if n > 0 {
      IntValuesInSame(d1, d2, n - 1);
    }
  }

  /** A string-keyed entry leaves the integer keys and their values alone. */
  lemma MergeEntryStrKey(acc: PhpArray, k: Key, v: Value)
    requires acc.Valid() && Renumbered(acc) && k.StrKey?
    ensures Renumbered(MergeEntry(acc, k, v))
    ensures IntKeyCount(MergeEntry(acc, k, v).keys) == IntKeyCount(acc.keys)
    ensures IntValues(MergeEntry(acc, k, v)) == IntValues(acc)
    ensures IntsInOrder(acc) ==> IntsInOrder(MergeEntry(acc, k, v))
  {
    var r := acc.Put(k, v);
    if k !in acc.vals {
      IntKeyCountAppend(acc.keys, k);
    }
    MergeEntryValues(acc, k, v);
    forall k' | k' in r.vals && k'.IntKey? ensures k' in acc.vals {
      assert r.Get(k') == acc.Get(k');
    }
    forall i | 0 <= i < |IntValues(r)| ensures r.Get(IntKey(i)) == acc.Get(IntKey(i)) {
    }
  }

  /** An integer-keyed entry lands under the next free index, after the
      integer-keyed values there were. */
  lemma MergeEntryIntKey(acc: PhpArray, k: Key, v: Value)
    requires acc.Valid() && Renumbered(acc) && k.IntKey?
    ensures Renumbered(MergeEntry(acc, k, v))
    ensures IntKeyCount(MergeEntry(acc, k, v).keys) == IntKeyCount(acc.keys) + 1
    ensures MergeEntry(acc, k, v).Get(IntKey(IntKeyCount(acc.keys))) == Some(v)
    ensures IntValues(MergeEntry(acc, k, v)) == IntValues(acc) + [v]
    ensures IntsInOrder(acc) ==> IntsInOrder(MergeEntry(acc, k, v))
  {
    var c := IntKeyCount(acc.keys);
    var r := acc.Put(IntKey(c), v);
    assert IntKey(c) !in acc.vals;
    IntKeyCountAppend(acc.keys, IntKey(c));
    MergeEntryValues(acc, k, v);
    forall k' | k' in r.vals && k'.IntKey? ensures 0 <= k'.n < c + 1 {
      if k' != IntKey(c) {
        assert r.Get(k') == acc.Get(k');
      }
    }
    forall i | 0 <= i < c ensures r.Get(IntKey(i)) == acc.Get(IntKey(i)) {
    }
  }

  /** Appending a key adds one to the count exactly when it is an integer key. */
  lemma IntKeyCountAppend(ks: seq<Key>, k: Key)
    ensures IntKeyCount(ks + [k]) == IntKeyCount(ks) + if k.IntKey? then 1 else 0
  {
    IntKeysInAppend(ks, k, |ks|);
  }

  lemma {:induction false} IntKeysInAppend(ks: seq<Key>, k: Key, n: nat)
    requires n <= |ks|
    ensures IntKeysIn(ks + [k], n) == IntKeysIn(ks, n)
  {
    if n > 0 {
      IntKeysInAppend(ks, k, n - 1);
    }
  }

  /** `array_merge` keeps the integer-keyed values of both arrays, those of
      the first array before those of the second, each in key order, and
      stores the i-th of them under index i: the integer keys are
      renumbered 0, 1, 2, … and there are no others. */
  lemma ArrayMergeIntKeys(a: PhpArray, b: PhpArray)
    requires a.Valid() && b.Valid()
    ensures IntValues(ArrayMerge(a, b)) == IntValues(a) + IntValues(b)
    ensures Renumbered(ArrayMerge(a, b))
    ensures forall i :: 0 <= i < |IntValues(a) + IntValues(b)| ==>
              ArrayMerge(a, b).Get(IntKey(i)) == Some((IntValues(a) + IntValues(b))[i])
  {
    ArrayMergeInts(a, b);
  }

  lemma ArrayMergeInts(a: PhpArray, b: PhpArray)
    requires a.Valid() && b.Valid()
    ensures IntsInOrder(ArrayMerge(a, b))
    ensures IntValues(ArrayMerge(a, b)) == IntValues(a) + IntValues(b)
  {
    MergeIntoEmptyInts(a);
    MergeFromIntKeys(MergeFrom(Empty(), a, |a.keys|), b, |b.keys|);
  }

  /** Merging an array into the empty one renumbers its integer keys. */
  lemma MergeIntoEmptyInts(a: PhpArray)
    requires a.Valid()
    ensures IntsInOrder(MergeFrom(Empty(), a, |a.keys|))
    ensures IntValues(MergeFrom(Empty(), a, |a.keys|)) == IntValues(a)
  {
    var e: PhpArray := Empty();
    assert IntValues(e) == [];
    MergeFromIntKeys(e, a, |a.keys|);
    assert [] + IntValues(a) == IntValues(a);
  }

  /** Adding entries never moves the entries already there. */
  lemma {:induction false} MergeFromKeepsOrder(acc: PhpArray, src: PhpArray, n: nat)
    requires acc.Valid() && src.Valid() && n <= |src.keys|
    ensures acc.keys <= MergeFrom(acc, src, n).keys
  {
    if n > 0 {
      var k := src.keys[n - 1];
      var prev := MergeFrom(acc, src, n - 1);
      MergeFromKeepsOrder(acc, src, n - 1);
      assert MergeEntry(prev, k, src.vals[k]) == MergeFrom(acc, src, n);
    }
  }

  /** Merging the first `n` entries of a string-keyed array into an empty one
      rebuilds exactly those entries, in the same order. */
  lemma {:induction false} MergeFromEmptyCopies(a: PhpArray, n: nat)
    requires a.Valid() && StringKeyed(a) && n <= |a.keys|
    ensures |MergeFrom(Empty(), a, n).keys| == n
    ensures forall j :: 0 <= j < n ==> MergeFrom(Empty(), a, n).keys[j] == a.keys[j]
  {
    if n > 0 {
      var k := a.keys[n - 1];
      var prev := MergeFrom(Empty(), a, n - 1);
      MergeFromEmptyCopies(a, n - 1);
      NotAmongEarlier(a.keys, prev.keys, n - 1);
      NewStringKeyAppended(prev, k, a.vals[k]);
    }
  }

  /** A string key not yet listed goes last. */
  lemma NewStringKeyAppended(acc: PhpArray, k: Key, v: Value)
    requires acc.Valid() && k.StrKey? && k !in acc.keys
    ensures MergeEntry(acc, k, v).keys == acc.keys + [k]
  {
    acc.Domain();
  }

  /** In a list without repeats, the key at position `n` is not among the
      keys before it. */
  lemma NotAmongEarlier(ks: seq<Key>, earlier: seq<Key>, n: nat)
    requires Distinct(ks) && n < |ks| && |earlier| == n
    requires forall j :: 0 <= j < n ==> earlier[j] == ks[j]
    ensures ks[n] !in earlier
  {
  }

  /** `array_merge($a, [])` is `$a` itself when `$a` has only string keys. */
  lemma ArrayMergeEmptyRight(a: PhpArray)
    requires a.Valid() && StringKeyed(a)
    ensures ArrayMerge(a, Empty()) == a
  {
    var r := ArrayMerge(a, Empty());
    assert r == MergeFrom(Empty(), a, |a.keys|);
    MergeFromEmptyCopies(a, |a.keys|);
    assert r.keys == a.keys;
    r.Domain();
    a.Domain();
    forall k | k in r.vals
      ensures k in a.vals && r.vals[k] == a.vals[k]
    {
      assert k in r.keys;
      var i :| 0 <= i < |r.keys| && r.keys[i] == k;
      assert a.keys[i].StrKey?;
      ArrayMergeStringKey(a, Empty(), k.s);
      assert r.Get(k) == a.Get(k);
    }
    assert r.vals.Keys == a.vals.Keys;
    assert r.vals == a.vals;
  }

  /** With a string-keyed first array, `array_merge` lists the first array's
      keys first, in their order; the second array's new keys follow. */
  lemma ArrayMergeOrder(a: PhpArray, b: PhpArray)
    requires a.Valid() && b.Valid() && StringKeyed(a)
    ensures a.keys <= ArrayMerge(a, b).keys
  {
    var left := MergeFrom(Empty(), a, |a.keys|);
    MergeFromEmptyCopies(a, |a.keys|);
    assert left.keys == a.keys;
    MergeFromKeepsOrder(left, b, |b.keys|);
  }

  // ---------------------------------------------------------------------
  // draw() and locate()
  // ---------------------------------------------------------------------

  /** The drawing toolbar's default options (the literal in `draw()`). */
  function DrawDefaults(): PhpArray {
    Dict([
      StrKey("lang"), StrKey("position"), StrKey("drawCircle"), StrKey("drawCircleMarker"),
      StrKey("drawPolyline"), StrKey("drawRectangle"), StrKey("drawPolygon"), StrKey("drawMarker"),
      StrKey("drawText"), StrKey("cutPolygon"), StrKey("editMode"), StrKey("removalMode")],
      map[
        StrKey("lang") := Str("en"), StrKey("position") := Str("topleft"),
        StrKey("drawCircle") := Bool(false), StrKey("drawCircleMarker") := Bool(false),
        StrKey("drawPolyline") := Bool(true), StrKey("drawRectangle") := Bool(false),
        StrKey("drawPolygon") := Bool(true), StrKey("drawMarker") := Bool(false),
        StrKey("drawText") := Bool(false), StrKey("cutPolygon") := Bool(true),
        StrKey("editMode") := Bool(true), StrKey("removalMode") := Bool(true)])
  }

  /** The location control's default options (the literal in `locate()`);
      `timeout` and `maximumAge` are in milliseconds. */
  function LocateDefaults(): PhpArray {
    Dict([
      StrKey("position"), StrKey("flyTo"), StrKey("enableHighAccuracy"),
      StrKey("watch"), StrKey("timeout"), StrKey("maximumAge")],
      map[
        StrKey("position") := Str("topright"), StrKey("flyTo") := Bool(true),
        StrKey("enableHighAccuracy") := Bool(true), StrKey("watch") := Bool(true),
        StrKey("timeout") := Int(10000), StrKey("maximumAge") := Int(0)])
  }

  /** Both default tables are well-formed string-keyed arrays. */
  lemma DefaultsWellFormed()
    ensures DrawDefaults().Valid() && StringKeyed(DrawDefaults())
    ensures LocateDefaults().Valid() && StringKeyed(LocateDefaults())
  {
    DrawKeysDistinct();
    DrawKeysListed();
    DrawDefaultsSize();
    LocateKeysDistinct();
    LocateKeysListed();
    LocateDefaultsSize();
  }

  lemma DrawKeysDistinct()
    ensures Distinct(DrawDefaults().keys)
  {
  }

  lemma DrawKeysListed()
    ensures StringKeyed(DrawDefaults())
    ensures forall i :: 0 <= i < |DrawDefaults().keys| ==> DrawDefaults().keys[i] in DrawDefaults().vals
  {
  }

  lemma DrawDefaultsSize()
    ensures |DrawDefaults().vals| == |DrawDefaults().keys|
  {
  }

  lemma LocateKeysDistinct()
    ensures Distinct(LocateDefaults().keys)
  {
  }

  lemma LocateKeysListed()
    ensures StringKeyed(LocateDefaults())
    ensures forall i :: 0 <= i < |LocateDefaults().keys| ==> LocateDefaults().keys[i] in LocateDefaults().vals
  {
  }

  lemma LocateDefaultsSize()
    ensures |LocateDefaults().vals| == |LocateDefaults().keys|
  {
  }

  /** The `options` entry `draw()` stores: the caller's options merged over the defaults. */
  function DrawOptions(options: PhpArray): (r: PhpArray)
    requires options.Valid()
    ensures r.Valid()
  {
    DefaultsWellFormed();
    ArrayMerge(DrawDefaults(), options)
  }

  /** The `options` entry `locate()` stores. */
  function LocateOptions(options: PhpArray): (r: PhpArray)
    requires options.Valid()
    ensures r.Valid()
  {
    DefaultsWellFormed();
    ArrayMerge(LocateDefaults(), options)
  }

  /** The array `draw()` stores in its field. */
  function DrawSetting(active: bool, statePath: string, options: PhpArray): (r: PhpArray)
    requires options.Valid()
    ensures r.Valid()
  {
    Empty()
      .Put(StrKey("active"), Bool(active))
      .Put(StrKey("statePath"), Str(statePath))
      .Put(StrKey("options"), Arr(DrawOptions(options)))
  }

  /** The array `locate()` stores in its field. */
  function LocateSetting(active: bool, options: PhpArray): (r: PhpArray)
    requires options.Valid()
    ensures r.Valid()
  {
    Empty()
      .Put(StrKey("active"), Bool(active))
      .Put(StrKey("options"), Arr(LocateOptions(options)))
  }

  /** `draw()` stores exactly `active`, `statePath` and `options`, in that order. */
  lemma DrawSettingShape(active: bool, statePath: string, options: PhpArray)
    requires options.Valid()
    ensures DrawSetting(active, statePath, options).keys == [StrKey("active"), StrKey("statePath"), StrKey("options")]
    ensures DrawSetting(active, statePath, options).Get(StrKey("active")) == Some(Bool(active))
    ensures DrawSetting(active, statePath, options).Get(StrKey("statePath")) == Some(Str(statePath))
    ensures DrawSetting(active, statePath, options).Get(StrKey("options")) == Some(Arr(DrawOptions(options)))
  {
  }

  /** `locate()` stores exactly `active` and `options`, in that order. */
  lemma LocateSettingShape(active: bool, options: PhpArray)
    requires options.Valid()
    ensures LocateSetting(active, options).keys == [StrKey("active"), StrKey("options")]
    ensures LocateSetting(active, options).Get(StrKey("active")) == Some(Bool(active))
    ensures LocateSetting(active, options).Get(StrKey("options")) == Some(Arr(LocateOptions(options)))
  {
  }

  /** In `draw()`, an option the caller supplies overrides its default, an
      omitted option keeps its default, an option with no default is kept,
      and the defaults come first in their own order. */
  lemma DrawOptionsMerge(options: PhpArray, name: string)
    requires options.Valid()
    ensures StrKey(name) in options.vals ==> DrawOptions(options).Get(StrKey(name)) == options.Get(StrKey(name))
    ensures StrKey(name) !in options.vals ==> DrawOptions(options).Get(StrKey(name)) == DrawDefaults().Get(StrKey(name))
    ensures DrawDefaults().keys <= DrawOptions(options).keys
  {
    DefaultsWellFormed();
    ArrayMergeStringKey(DrawDefaults(), options, name);
    ArrayMergeOrder(DrawDefaults(), options);
  }

  /** In `locate()`, options merge over the defaults by the same rule. */
  lemma LocateOptionsMerge(options: PhpArray, name: string)
    requires options.Valid()
    ensures StrKey(name) in options.vals ==> LocateOptions(options).Get(StrKey(name)) == options.Get(StrKey(name))
    ensures StrKey(name) !in options.vals ==> LocateOptions(options).Get(StrKey(name)) == LocateDefaults().Get(StrKey(name))
    ensures LocateDefaults().keys <= LocateOptions(options).keys
  {
    DefaultsWellFormed();
    ArrayMergeStringKey(LocateDefaults(), options, name);
    ArrayMergeOrder(LocateDefaults(), options);
  }

  /** `draw()` without options stores exactly the drawing defaults, in order. */
  lemma DrawWithoutOptions()
    ensures DrawOptions(Empty()) == DrawDefaults()
  {
    DefaultsWellFormed();
    ArrayMergeEmptyRight(DrawDefaults());
  }

  /** The twelve drawing defaults: language 'en', toolbar 'topleft', polylines,
      polygons, polygon cutting, edit mode and removal mode on, every other
      tool off. */
  lemma DrawDefaultsContent()
    ensures |DrawDefaults().keys| == 12
    ensures DrawDefaults().Get(StrKey("lang")) == Some(Str("en"))
    ensures DrawDefaults().Get(StrKey("position")) == Some(Str("topleft"))
    ensures DrawDefaults().Get(StrKey("drawCircle")) == Some(Bool(false))
    ensures DrawDefaults().Get(StrKey("drawCircleMarker")) == Some(Bool(false))
    ensures DrawDefaults().Get(StrKey("drawPolyline")) == Some(Bool(true))
    ensures DrawDefaults().Get(StrKey("drawRectangle")) == Some(Bool(false))
    ensures DrawDefaults().Get(StrKey("drawPolygon")) == Some(Bool(true))
    ensures DrawDefaults().Get(StrKey("drawMarker")) == Some(Bool(false))
    ensures DrawDefaults().Get(StrKey("drawText")) == Some(Bool(false))
    ensures DrawDefaults().Get(StrKey("cutPolygon")) == Some(Bool(true))
    ensures DrawDefaults().Get(StrKey("editMode")) == Some(Bool(true))
    ensures DrawDefaults().Get(StrKey("removalMode")) == Some(Bool(true))
  {
  }

  /** `locate()` without options stores exactly the location defaults, in order. */
  lemma LocateWithoutOptions()
    ensures LocateOptions(Empty()) == LocateDefaults()
  {
    DefaultsWellFormed();
    ArrayMergeEmptyRight(LocateDefaults());
  }

  /** The six location defaults: control 'topright', fly to the position,
      high accuracy, keep watching, a 10000 ms timeout and no cached position. */
  lemma LocateDefaultsContent()
    ensures |LocateDefaults().keys| == 6
    ensures LocateDefaults().Get(StrKey("position")) == Some(Str("topright"))
    ensures LocateDefaults().Get(StrKey("flyTo")) == Some(Bool(true))
    ensures LocateDefaults().Get(StrKey("enableHighAccuracy")) == Some(Bool(true))
    ensures LocateDefaults().Get(StrKey("watch")) == Some(Bool(true))
    ensures LocateDefaults().Get(StrKey("timeout")) == Some(Int(10000))
    ensures LocateDefaults().Get(StrKey("maximumAge")) == Some(Int(0))
  {
  }

  // ---------------------------------------------------------------------
  // The field
  // ---------------------------------------------------------------------

  /** The values of all of the field's own settings at one moment. */
  datatype Settings = Settings(
    disableMarker: bool,
    height: Option<int>,
    zoom: Option<int>,
    showCoordinates: bool,
    tiles: PhpArray,
    markerIcon: PhpArray,
    draw: PhpArray,
    locate: PhpArray,
    geoJson: Option<string>)

  /** What `getState()` gives back: an array state as it is, anything else
      handed to `json_decode($state, true)`, which is not part of this model. */
  datatype StateRead = AsIs(value: Value) | JsonDecoded(input: Value)

  /** The map form field. Each setter overwrites its own setting and returns
      the same field, so calls can be chained. */
  class MapField {
    var disableMarker: bool
    var height: Option<int>
    var zoom: Option<int>
    var showCoordinates: bool
    var tiles: PhpArray
    var markerIcon: PhpArray
    var draw: PhpArray
    var locate: PhpArray
    var geoJson: Option<string>

    ghost function Current(): Settings
      reads this
    {
      Settings(disableMarker, height, zoom, showCoordinates, tiles, markerIcon, draw, locate, geoJson)
    }

    /** A new field: marker enabled, no height, zoom 10, coordinates hidden,
        no tiles, icon, drawing or location settings, and no GeoJSON. */
    constructor ()
      ensures Current() == Settings(false, None, Some(10), false, Empty(), Empty(), Empty(), Empty(), None)
    {
      disableMarker := false;
      height := None;
      zoom := Some(10);
      showCoordinates := false;
      tiles := Empty();
      markerIcon := Empty();
      draw := Empty();
      locate := Empty();
      geoJson := None;
    }

    // The getters read back what the last setter stored.

    function GetDisableMarker(): (r: bool)
      reads this
      ensures r == Current().disableMarker
    {
      disableMarker
    }

    function GetZoom(): (r: Option<int>)
      reads this
      ensures r == Current().zoom
    {
      zoom
    }

    function GetHeight(): (r: Option<int>)
      reads this
      ensures r == Current().height
    {
      height
    }

    function GetShowCoordinates(): (r: bool)
      reads this
      ensures r == Current().showCoordinates
    {
      showCoordinates
    }

    function GetTiles(): (r: PhpArray)
      reads this
      ensures r == Current().tiles
    {
      tiles
    }

    function GetMarkerIcon(): (r: PhpArray)
      reads this
      ensures r == Current().markerIcon
    {
      markerIcon
    }

    function GetDraw(): (r: PhpArray)
      reads this
      ensures r == Current().draw
    {
      draw
    }

    function GetLocate(): (r: PhpArray)
      reads this
      ensures r == Current().locate
    {
      locate
    }

    function GetGeoJson(): (r: Option<string>)
      reads this
      ensures r == Current().geoJson
    {
      geoJson
    }

    method DisableMarker(disableMarker: bool := true) returns (self: MapField)
      modifies this
      ensures self == this && GetDisableMarker() == disableMarker
      ensures Current() == old(Current()).(disableMarker := disableMarker)
    {
      this.disableMarker := disableMarker;
      self := this;
    }

    method Zoom(zoom: Option<int>) returns (self: MapField)
      modifies this
      ensures self == this && GetZoom() == zoom
      ensures Current() == old(Current()).(zoom := zoom)
    {
      this.zoom := zoom;
      self := this;
    }

    method Height(height: Option<int>) returns (self: MapField)
      modifies this
      ensures self == this && GetHeight() == height
      ensures Current() == old(Current()).(height := height)
    {
      this.height := height;
      self := this;
    }

    method ShowCoordinates(showCoordinates: bool := true) returns (self: MapField)
      modifies this
      ensures self == this && GetShowCoordinates() == showCoordinates
      ensures Current() == old(Current()).(showCoordinates := showCoordinates)
    {
      this.showCoordinates := showCoordinates;
      self := this;
    }

    method Tiles(tiles: PhpArray) returns (self: MapField)
      modifies this
      ensures self == this && GetTiles() == tiles
      ensures Current() == old(Current()).(tiles := tiles)
    {
      this.tiles := tiles;
      self := this;
    }

    method MarkerIcon(markerIcon: PhpArray) returns (self: MapField)
      modifies this
      ensures self == this && GetMarkerIcon() == markerIcon
      ensures Current() == old(Current()).(markerIcon := markerIcon)
    {
      this.markerIcon := markerIcon;
      self := this;
    }

    /** Replaces the drawing settings wholesale: nothing of an earlier call survives. */
    method Draw(active: bool := true, statePath: string := "geojson", options: PhpArray := Empty())
      returns (self: MapField)
      requires options.Valid()
      modifies this
      ensures self == this && GetDraw() == DrawSetting(active, statePath, options)
      ensures Current() == old(Current()).(draw := DrawSetting(active, statePath, options))
    {
      draw := DrawSetting(active, statePath, options);
      self := this;
    }

    /** Replaces the location-control settings wholesale. */
    method Locate(active: bool := true, options: PhpArray := Empty()) returns (self: MapField)
      requires options.Valid()
      modifies this
      ensures self == this && GetLocate() == LocateSetting(active, options)
      ensures Current() == old(Current()).(locate := LocateSetting(active, options))
    {
      locate := LocateSetting(active, options);
      self := this;
    }

    method GeoJson(geoJson: Option<string>) returns (self: MapField)
      modifies this
      ensures self == this && GetGeoJson() == geoJson
      ensures Current() == old(Current()).(geoJson := geoJson)
    {
      this.geoJson := geoJson;
      self := this;
    }

    /** `getState()` over the state the framework holds for the field: an
        array comes back unchanged, anything else goes to `json_decode`. */
    function GetState(stored: Value): (r: StateRead)
      ensures r.AsIs? <==> stored.Arr?
      ensures r.AsIs? ==> r.value == stored
      ensures r.JsonDecoded? ==> r.input == stored
    {
      if stored.Arr? then AsIs(stored) else JsonDecoded(stored)
    }
  }

  /** Two `draw()` calls in a row: the field ends up with the second call's
      setting alone, whatever the first one stored. */
  method DrawTwice(field: MapField, active1: bool, statePath1: string, first: PhpArray,
                   active2: bool, statePath2: string, second: PhpArray)
    requires first.Valid() && second.Valid()
    modifies field
    ensures field.Current() == old(field.Current()).(draw := DrawSetting(active2, statePath2, second))
  {
    var f := field.Draw(active1, statePath1, first);
    f := f.Draw(active2, statePath2, second);
  }
}
