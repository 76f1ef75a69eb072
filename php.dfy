/**
 * The PHP values the adapter handles: what `json_decode($s, true)` produces,
 * and PHP's ordered arrays with the few operations the core applies to them
 * (`$a[$k]`, `$a[$k] = $v`, `isset`/`??`, the `(array)` cast, string truthiness).
 */
module Php {
  import opened Wrappers

  datatype Key = IntKey(i: int) | StrKey(s: string)

  datatype PhpValue =
    | PNull
    | PBool(b: bool)
    | PInt(n: int)
    | PFloat(x: real)
    | PStr(s: string)
    | PArr(entries: seq<(Key, PhpValue)>)

  /** A PHP array: an ordered list of key/value entries. */
  type PhpArray = seq<(Key, PhpValue)>

  /** PHP truthiness of a string: only "" and "0" are false. */
  predicate Falsy(s: string) {
    s == "" || s == "0"
  }

  predicate HasKey(a: PhpArray, k: Key) {
    exists i :: 0 <= i < |a| && a[i].0 == k
  }

  /** PHP arrays never hold a key twice. */
  predicate UniqueKeys(a: PhpArray) {
    forall i, j :: 0 <= i < j < |a| ==> a[i].0 != a[j].0
  }

  function KeysOf(a: PhpArray): (ks: seq<Key>)
    ensures |ks| == |a|
    ensures forall i :: 0 <= i < |a| ==> ks[i] == a[i].0
  {
    seq(|a|, i requires 0 <= i < |a| => a[i].0)
  }

  /** `$a[$k]` for a key that is present (first entry under that key). */
  function Get(a: PhpArray, k: Key): (r: Option<PhpValue>)
    ensures r.Some? <==> HasKey(a, k)
    ensures r.Some? ==> exists i :: 0 <= i < |a| && a[i] == (k, r.value)
    ensures UniqueKeys(a) ==> forall i :: 0 <= i < |a| && a[i].0 == k ==> r == Some(a[i].1)
  {
    if a == [] then None
    else if a[0].0 == k then Some(a[0].1)
    else
      var r := Get(a[1..], k);
      assert forall i :: 1 <= i < |a| ==> a[i] == a[1..][i - 1];
      r
  }

  /** `$a[$k] = $v`: overwrite in place when the key is present, append otherwise. */
  function Put(a: PhpArray, k: Key, v: PhpValue): (r: PhpArray)
    ensures HasKey(a, k) ==> KeysOf(r) == KeysOf(a)
    ensures !HasKey(a, k) ==> r == a + [(k, v)]
    ensures forall i :: 0 <= i < |a| && a[i].0 != k ==> r[i] == a[i]
  {
    if a == [] then [(k, v)]
    else if a[0].0 == k then [(k, v)] + a[1..]
    else
      var rest := Put(a[1..], k, v);
      assert HasKey(a, k) ==> HasKey(a[1..], k) by {
        if HasKey(a, k) {
          var i :| 0 <= i < |a| && a[i].0 == k;
          assert a[1..][i - 1].0 == k;
        }
      }
      assert !HasKey(a, k) ==> !HasKey(a[1..], k) by {
        if HasKey(a[1..], k) {
          var i :| 0 <= i < |a| - 1 && a[1..][i].0 == k;
          assert a[i + 1].0 == k;
        }
      }
      [a[0]] + rest
  }

  /** Reading back after `$a[$k] = $v` gives `$v`. */
  lemma {:induction false} GetPut(a: PhpArray, k: Key, v: PhpValue)
    ensures Get(Put(a, k, v), k) == Some(v)
  {
    if a != [] && a[0].0 != k {
      GetPut(a[1..], k, v);
    }
  }

  /** `$a[$k] = $v` leaves every other key's value as it was. */
  lemma {:induction false} GetPutOther(a: PhpArray, k: Key, v: PhpValue, k': Key)
    requires k' != k
    ensures Get(Put(a, k, v), k') == Get(a, k')
  {
    if a != [] && a[0].0 != k {
      GetPutOther(a[1..], k, v, k');
    }
  }

  /** `$a[$k] = $v` keeps the keys of an array distinct. */
  lemma {:induction false} PutKeepsUniqueKeys(a: PhpArray, k: Key, v: PhpValue)
    requires UniqueKeys(a)
    ensures UniqueKeys(Put(a, k, v))
  {
    var r := Put(a, k, v);
    if HasKey(a, k) {
      assert KeysOf(r) == KeysOf(a);
      forall i, j | 0 <= i < j < |r| ensures r[i].0 != r[j].0 {
        assert r[i].0 == KeysOf(r)[i] == KeysOf(a)[i] == a[i].0;
        assert r[j].0 == KeysOf(r)[j] == KeysOf(a)[j] == a[j].0;
      }
    }
  }

  /** After `$a[$k] = $v` the keys are those of `$a` and `$k`. */
  lemma PutHasKey(a: PhpArray, k: Key, v: PhpValue, k': Key)
    ensures HasKey(Put(a, k, v), k') <==> HasKey(a, k') || k' == k
  {
    var r := Put(a, k, v);
    if HasKey(a, k) {
      assert KeysOf(r) == KeysOf(a);
      if HasKey(a, k') {
        var i :| 0 <= i < |a| && a[i].0 == k';
        assert r[i].0 == KeysOf(r)[i];
      }
      if HasKey(r, k') {
        var i :| 0 <= i < |r| && r[i].0 == k';
        assert a[i].0 == KeysOf(a)[i];
      }
      var i :| 0 <= i < |a| && a[i].0 == k;
      assert r[i].0 == KeysOf(r)[i];
    } else {
      assert r[|a|].0 == k;
      if HasKey(a, k') {
        var i :| 0 <= i < |a| && a[i].0 == k';
        assert r[i] == a[i];
      }
    }
  }

  /** `$a = []; foreach ($entries as $k => $v) { $a[$k] = $v; }` */
  function PutAll(entries: PhpArray): PhpArray
    decreases |entries|
  {
    if entries == [] then []
    else
      var last := entries[|entries| - 1];
      Put(PutAll(entries[..|entries| - 1]), last.0, last.1)
  }

  /** Every key of `entries` is in `PutAll(entries)`, and only those. */
  lemma {:induction false} PutAllKeys(entries: PhpArray, k: Key)
    ensures HasKey(PutAll(entries), k) <==> HasKey(entries, k)
  {
    if entries != [] {
      var n := |entries|;
      var init := entries[..n - 1];
      var last := entries[n - 1];
      PutAllKeys(init, k);
      PutHasKey(PutAll(init), last.0, last.1, k);
      if HasKey(init, k) {
        var i :| 0 <= i < |init| && init[i].0 == k;
        assert entries[i].0 == k;
      }
      if HasKey(entries, k) && k != last.0 {
        var i :| 0 <= i < n && entries[i].0 == k;
        assert init[i].0 == k;
      }
    }
  }

  /**
   * The keys a `foreach` of `$a[$k] = $v` builds are distinct, whatever the
   * entries: a repeated key overwrites.
   */
  lemma {:induction false} PutAllUniqueKeys(entries: PhpArray)
    ensures UniqueKeys(PutAll(entries))
  {
    if entries != [] {
      var last := entries[|entries| - 1];
      PutAllUniqueKeys(entries[..|entries| - 1]);
      PutKeepsUniqueKeys(PutAll(entries[..|entries| - 1]), last.0, last.1);
    }
  }

  /** Assigning entries whose keys are distinct builds exactly those entries, in order. */
  lemma {:induction false} PutAllUnique(entries: PhpArray)
    requires UniqueKeys(entries)
    ensures PutAll(entries) == entries
  {
    if entries != [] {
      var n := |entries|;
      var init := entries[..n - 1];
      assert UniqueKeys(init) by {
        forall i, j | 0 <= i < j < |init| ensures init[i].0 != init[j].0 {
          assert init[i] == entries[i] && init[j] == entries[j];
        }
      }
      PutAllUnique(init);
      assert !HasKey(init, entries[n - 1].0);
      assert init + [entries[n - 1]] == entries;
    }
  }

  /**
   * `$v[$k]` under `isset` semantics: the value when `$v` is an array holding
   * a non-null value under `$k`, or a string with a character at offset `$k`;
   * None where `isset($v[$k])` would be false.
   */
  function Index(v: PhpValue, k: Key): (r: Option<PhpValue>)
    ensures r.Some? ==> r.value != PNull
    ensures r.Some? ==> v.PArr? || v.PStr?
  {
    match v
    case PArr(a) =>
      (match Get(a, k)
       case Some(PNull) => None
       case other => other)
    case PStr(s) =>
      if k.IntKey? && 0 <= k.i < |s| then Some(PStr([s[k.i]])) else None
    case _ => None
  }

  /** Index into an optional value, so that `$v[$k1][$k2]` chains. */
  function IndexOpt(o: Option<PhpValue>, k: Key): (r: Option<PhpValue>)
    ensures o.None? ==> r.None?
  {
    match o
    case None => None
    case Some(v) => Index(v, k)
  }

  /** `$x ?? $default` */
  function Coalesce(o: Option<PhpValue>, default: PhpValue): (r: PhpValue)
    ensures o.Some? && o.value != PNull ==> r == o.value
    ensures o.None? ==> r == default
  {
    if o.Some? && o.value != PNull then o.value else default
  }

  /** The `(array)` cast: null becomes [], an array stays, a scalar becomes [0 => scalar]. */
  function ToArray(v: PhpValue): PhpArray {
    match v
    case PNull => []
    case PArr(a) => a
    case _ => [(IntKey(0), v)]
  }
}
