/**
 The functional helpers used to write actions declaratively. In JavaScript
 each helper mutates the object it is given and returns it; here each
 returns the updated object, which is the value the caller observes.
 The `for ... in` loops, whose key order JavaScript fixes but these helpers
 never depend on, are modelled by methods that take the keys in any order.
 */
module Fun {
  import opened Values

  // ---------------------------------------------------------------------
  // assoc

  /** `assoc(key)(value)(o)`: sets one property. */
  function Assoc(key: string, value: Value, o: Object): (r: Object)
    ensures key in r && r[key] == value
    ensures r.Keys == o.Keys + {key}
    ensures forall k :: k in o && k != key ==> r[k] == o[k]
  {
    o[key := value]
  }

  /** Associating the same key and value twice is the same as once. */
  lemma AssocIdempotent(key: string, value: Value, o: Object)
    ensures Assoc(key, value, Assoc(key, value, o)) == Assoc(key, value, o)
  {
  }

  /** The later of two writes to one key is the one that remains. */
  lemma AssocLastWriteWins(key: string, v1: Value, v2: Value, o: Object)
    ensures Assoc(key, v2, Assoc(key, v1, o)) == Assoc(key, v2, o)
  {
  }

  // ---------------------------------------------------------------------
  // evolve / evolveKey

  /** A table of per-key update functions. */
  type FnIndex = map<string, Value -> Value>

  /** `evolve(index)(o)`: every key of `index` is rewritten by its function,
      applied to the key's previous value (`undefined` when absent). */
  function Evolve(index: FnIndex, o: Object): (r: Object)
    ensures r.Keys == o.Keys + index.Keys
    ensures forall k :: k in index ==> r[k] == index[k](Get(o, k))
    ensures forall k :: k in o && k !in index ==> r[k] == o[k]
  {
    o + map k | k in index :: index[k](Get(o, k))
  }

  /** The `for (key in index)` loop of `evolve`, visiting keys in any order,
      computes `Evolve`: each update reads a value no other update wrote. */
  method EvolveLoop(index: FnIndex, o: Object) returns (r: Object)
    ensures r == Evolve(index, o)
  {
    r := o;
    var todo := index.Keys;
    while todo != {}
      invariant todo <= index.Keys
      invariant r.Keys == o.Keys + (index.Keys - todo)
      invariant forall k :: k in index && k !in todo ==> r[k] == index[k](Get(o, k))
      invariant forall k :: k in o && (k !in index || k in todo) ==> r[k] == o[k]
      decreases todo
    {
      var key :| key in todo;
      assert Get(r, key) == Get(o, key);
      r := r[key := index[key](Get(r, key))];
      todo := todo - {key};
    }
    EvolveExt(index, o, r);
  }

  /** A map that agrees with `Evolve` key by key is `Evolve`'s result. */
  lemma EvolveExt(index: FnIndex, o: Object, r: Object)
    requires r.Keys == o.Keys + index.Keys
    requires forall k :: k in index ==> r[k] == index[k](Get(o, k))
    requires forall k :: k in o && k !in index ==> r[k] == o[k]
    ensures r == Evolve(index, o)
  {
    var e := Evolve(index, o);
    assert forall k :: k in r ==> r[k] == e[k];
  }

  /** `evolveKey(key)(fn)(o)`: rewrites one property from its old value. */
  function EvolveKey(key: string, fn: Value -> Value, o: Object): (r: Object)
    ensures key in r && r[key] == fn(Get(o, key))
    ensures r.Keys == o.Keys + {key}
    ensures forall k :: k in o && k != key ==> r[k] == o[k]
  {
    o[key := fn(Get(o, key))]
  }

  /** `evolveKey` is `evolve` with a one-entry index. */
  lemma EvolveKeyIsEvolve(key: string, fn: Value -> Value, o: Object)
    ensures EvolveKey(key, fn, o) == Evolve(map[key := fn], o)
  {
  }

  /** `assoc` is `evolveKey` with a constant function. */
  lemma AssocIsEvolveKey(key: string, value: Value, o: Object)
    ensures Assoc(key, value, o) == EvolveKey(key, _ => value, o)
  {
  }

  // ---------------------------------------------------------------------
  // pipe

  /** `pipe(f1, ..., fn)(x)`: left-to-right composition, `f1` first. */
  function Pipe<T>(fs: seq<T -> T>, x: T): (r: T)
    ensures |fs| == 0 ==> r == x
    ensures |fs| == 1 ==> r == fs[0](x)
    decreases |fs|
  {
    if |fs| == 0 then x else Pipe(fs[1..], fs[0](x))
  }

  /** Piping a concatenation pipes the first part, then the second. */
  lemma {:induction false} PipeAppend<T>(fs: seq<T -> T>, gs: seq<T -> T>, x: T)
    ensures Pipe(fs + gs, x) == Pipe(gs, Pipe(fs, x))
    decreases |fs|
  {
    if |fs| == 0 {
      assert fs + gs == gs;
    } else {
      assert (fs + gs)[1..] == fs[1..] + gs;
      PipeAppend(fs[1..], gs, fs[0](x));
    }
  }

  /** Appending one function applies it last. */
  lemma PipeSnoc<T>(fs: seq<T -> T>, g: T -> T, x: T)
    ensures Pipe(fs + [g], x) == g(Pipe(fs, x))
  {
    PipeAppend(fs, [g], x);
  }

  /** An empty pipe is the identity. */
  lemma PipeEmpty<T>(x: T)
    ensures Pipe([], x) == x
  {
  }

  /** The loop inside `pipe`'s returned function. */
  method PipeLoop<T>(fs: seq<T -> T>, x: T) returns (result: T)
    ensures result == Pipe(fs, x)
  {
    result := x;
    var i := 0;
    while i < |fs|
      invariant 0 <= i <= |fs|
      invariant result == Pipe(fs[..i], x)
    {
      PipeSnoc(fs[..i], fs[i], x);
      assert fs[..i + 1] == fs[..i] + [fs[i]];
      result := fs[i](result);
      i := i + 1;
    }
    assert fs[..|fs|] == fs;
  }

  // ---------------------------------------------------------------------
  // mapToObj

  /** The key/value pair `fn(i, arr[i])` emitted for index `i`. */
  function Emit(arr: seq<Value>, fn: (nat, Value) -> (string, Value), i: nat): (string, Value)
    requires i < |arr|
  {
    fn(i, arr[i])
  }

  /** No later index emits the same key as index `i`. */
  predicate LastToEmit(arr: seq<Value>, fn: (nat, Value) -> (string, Value), i: nat)
    requires i < |arr|
  {
    forall j :: i < j < |arr| ==> Emit(arr, fn, j).0 != Emit(arr, fn, i).0
  }

  /** `mapToObj(arr, fn)`: an object holding every pair `fn` emits; for a
      key emitted more than once, the pair of the highest index wins. */
  function MapToObj(arr: seq<Value>, fn: (nat, Value) -> (string, Value)): (r: Object)
    ensures forall i :: 0 <= i < |arr| ==> Emit(arr, fn, i).0 in r
    ensures forall k :: k in r ==> exists i :: 0 <= i < |arr| && Emit(arr, fn, i).0 == k
    ensures forall i :: 0 <= i < |arr| && LastToEmit(arr, fn, i) ==>
      r[Emit(arr, fn, i).0] == Emit(arr, fn, i).1
    decreases |arr|
  {
    if |arr| == 0 then map[]
    else
      var n := |arr| - 1;
      var prev := MapToObj(arr[..n], fn);
      var r := prev[Emit(arr, fn, n).0 := Emit(arr, fn, n).1];
      MapToObjStep(arr, arr[..n], fn, prev, r);
      r
  }

  /** Writing the last pair onto the object built from the shorter prefix
      keeps the three properties of `MapToObj` for the whole sequence. */
  lemma MapToObjStep(arr: seq<Value>, pre: seq<Value>, fn: (nat, Value) -> (string, Value), prev: Object, r: Object)
    requires |arr| > 0 && pre == arr[..|arr| - 1]
    requires forall i :: 0 <= i < |pre| ==> Emit(pre, fn, i).0 in prev
    requires forall k :: k in prev ==> exists i :: 0 <= i < |pre| && Emit(pre, fn, i).0 == k
    requires forall i :: 0 <= i < |pre| && LastToEmit(pre, fn, i) ==>
      prev[Emit(pre, fn, i).0] == Emit(pre, fn, i).1
    requires r == prev[Emit(arr, fn, |pre|).0 := Emit(arr, fn, |pre|).1]
    ensures forall i :: 0 <= i < |arr| ==> Emit(arr, fn, i).0 in r
    ensures forall k :: k in r ==> exists i :: 0 <= i < |arr| && Emit(arr, fn, i).0 == k
    ensures forall i :: 0 <= i < |arr| && LastToEmit(arr, fn, i) ==> r[Emit(arr, fn, i).0] == Emit(arr, fn, i).1
  {
    var n := |pre|;
    var last := Emit(arr, fn, n);
    forall i | 0 <= i < n
      ensures Emit(pre, fn, i) == Emit(arr, fn, i)
    {
    }
    forall i | 0 <= i < |arr|
      ensures Emit(arr, fn, i).0 in r
    {
      if i < n {
        assert Emit(pre, fn, i).0 in prev;
      }
    }
    forall i | 0 <= i < |arr| && LastToEmit(arr, fn, i)
      ensures r[Emit(arr, fn, i).0] == Emit(arr, fn, i).1
    {
      if i < n {
        assert Emit(arr, fn, i).0 != last.0;
        assert LastToEmit(pre, fn, i) by {
          forall j | i < j < |pre|
            ensures Emit(pre, fn, j).0 != Emit(pre, fn, i).0
          {
            assert Emit(arr, fn, j).0 != Emit(arr, fn, i).0;
          }
        }
      }
    }
    forall k | k in r
      ensures exists i :: 0 <= i < |arr| && Emit(arr, fn, i).0 == k
    {
      if k != last.0 {
        var i :| 0 <= i < n && Emit(pre, fn, i).0 == k;
        assert Emit(arr, fn, i).0 == k;
      }
    }
  }

  /** The loop of `mapToObj`. */
  method MapToObjLoop(arr: seq<Value>, fn: (nat, Value) -> (string, Value)) returns (result: Object)
    ensures result == MapToObj(arr, fn)
  {
    result := map[];
    var i := 0;
    while i < |arr|
      invariant 0 <= i <= |arr|
      invariant result == MapToObj(arr[..i], fn)
    {
      var aux := fn(i, arr[i]);
      assert arr[..i + 1][..i] == arr[..i];
      result := result[aux.0 := aux.1];
      i := i + 1;
    }
    assert arr[..|arr|] == arr;
  }

  // ---------------------------------------------------------------------
  // merge

  /** `merge(src)(o)`: copies every property of `src` onto `o`. */
  function Merge(src: Object, o: Object): (r: Object)
    ensures r.Keys == src.Keys + o.Keys
    ensures forall k :: k in src ==> r[k] == src[k]
    ensures forall k :: k in o && k !in src ==> r[k] == o[k]
  {
    o + src
  }

  /** Merging the same source twice changes nothing further. */
  lemma MergeIdempotent(src: Object, o: Object)
    ensures Merge(src, Merge(src, o)) == Merge(src, o)
  {
  }

  /** `assoc` is a merge of a one-property source. */
  lemma AssocIsMerge(key: string, value: Value, o: Object)
    ensures Assoc(key, value, o) == Merge(map[key := value], o)
  {
  }

  /** The `for (key in src)` loop of `merge`, in any key order. */
  method MergeLoop(src: Object, o: Object) returns (r: Object)
    ensures r == Merge(src, o)
  {
    r := o;
    var todo := src.Keys;
    while todo != {}
      invariant todo <= src.Keys
      invariant r.Keys == o.Keys + (src.Keys - todo)
      invariant forall k :: k in src && k !in todo ==> r[k] == src[k]
      invariant forall k :: k in o && (k !in src || k in todo) ==> r[k] == o[k]
      decreases todo
    {
      var key :| key in todo;
      r := r[key := src[key]];
      todo := todo - {key};
    }
  }
}
