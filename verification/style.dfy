/**
 The style-group helpers: a style group maps class names to CSS property
 objects and is expected to carry a `base` class. `mergeStyles` layers one
 group over another, shallow-merging the property objects of classes both
 groups define.
 */
module Style {
  import opened Values

  /** A style group: class name to its CSS properties. */
  type StyleGroup = Object

  /** The empty property object `{}` that `mergeStyles` seeds `base` with. */
  const EmptyProps: Value := Obj(map[])

  /** `hasBaseObject(o)`: scans the keys of `o` (in any order) for a `base`
      key holding a non-null object. */
  method HasBaseObject(o: Object) returns (found: bool)
    ensures found <==> "base" in o && IsObjectLike(o["base"])
  {
    var todo := o.Keys;
    while todo != {}
      invariant todo <= o.Keys
      invariant "base" in o && "base" !in todo ==> !IsObjectLike(o["base"])
      decreases todo
    {
      var key :| key in todo;
      if IsObjectLike(o[key]) && key == "base" {
        return true;
      }
      todo := todo - {key};
    }
    return false;
  }

  /** `c(className, condition)`: a one-entry class toggle object. */
  function C(className: string, condition: bool): (r: Object)
    ensures r.Keys == {className}
    ensures r[className] == Bool(condition)
  {
    map[className := Bool(condition)]
  }

  /** The value `mergedGroup[k]` holds once `group1` has been copied over
      the seeded `{ base: {} }`: `group1`'s class, the seeded `base`, or
      `undefined`. */
  function Accumulated(group1: StyleGroup, k: string): Value {
    if k in group1 then group1[k] else if k == "base" then EmptyProps else Undefined
  }

  /** One step of the second loop: `Object.assign({}, acc, v2)` when the
      accumulated value is an object, otherwise `v2` itself. */
  function MergeEntry(acc: Value, v2: Value): (r: Value)
    ensures IsObjectLike(acc) ==> r.Obj? && r.props.Keys == OwnProps(acc).Keys + OwnProps(v2).Keys
    ensures IsObjectLike(acc) ==> forall p :: p in OwnProps(v2) ==> r.props[p] == OwnProps(v2)[p]
    ensures IsObjectLike(acc) ==> forall p :: p in OwnProps(acc) && p !in OwnProps(v2) ==> r.props[p] == OwnProps(acc)[p]
    ensures !IsObjectLike(acc) ==> r == v2
  {
    if IsObjectLike(acc) then Assign(Assign(EmptyProps, acc), v2) else v2
  }

  /** `mergeStyles(group1, group2)`. */
  function MergeStyles(group1: StyleGroup, group2: StyleGroup): (r: StyleGroup)
    ensures "base" in r
    ensures r.Keys == group1.Keys + group2.Keys + {"base"}
    ensures forall k :: k in group1 && k !in group2 ==> r[k] == group1[k]
    ensures forall k :: k in group2 ==> r[k] == MergeEntry(Accumulated(group1, k), group2[k])
    ensures "base" !in group1 && "base" !in group2 ==> r["base"] == EmptyProps
  {
    map k | k in group1.Keys + group2.Keys + {"base"} :: MergedAt(group1, group2, k)
  }

  /** The class `k` of the merged group. */
  function MergedAt(group1: StyleGroup, group2: StyleGroup, k: string): Value {
    if k in group2 then MergeEntry(Accumulated(group1, k), group2[k]) else Accumulated(group1, k)
  }

  /** The two loops of `mergeStyles`, each visiting its group's keys in any
      order, compute `MergeStyles`. */
  method MergeStylesLoop(group1: StyleGroup, group2: StyleGroup) returns (merged: StyleGroup)
    ensures merged == MergeStyles(group1, group2)
  {
    merged := map["base" := EmptyProps];
    var todo := group1.Keys;
    while todo != {}
      invariant todo <= group1.Keys
      invariant merged.Keys == {"base"} + (group1.Keys - todo)
      invariant forall k :: k in merged ==> merged[k] == (if k in group1 && k !in todo then group1[k] else EmptyProps)
      decreases todo
    {
      var key :| key in todo;
      merged := merged[key := group1[key]];
      todo := todo - {key};
    }
    todo := group2.Keys;
    while todo != {}
      invariant todo <= group2.Keys
      invariant merged.Keys == group1.Keys + {"base"} + (group2.Keys - todo)
      invariant forall k :: k in merged ==> merged[k] == (if k !in todo then MergedAt(group1, group2, k) else Accumulated(group1, k))
      decreases todo
    {
      var key :| key in todo;
      var acc := Get(merged, key);
      assert acc == Accumulated(group1, key);
      var v: Value;
      if IsObjectLike(acc) {
        v := Assign(Assign(EmptyProps, acc), group2[key]);
      } else {
        v := group2[key];
      }
      assert v == MergedAt(group1, group2, key);
      merged := merged[key := v];
      todo := todo - {key};
    }
    MergeStylesExt(group1, group2, merged);
  }

  /** A group that agrees with `MergeStyles` key by key is its result. */
  lemma MergeStylesExt(group1: StyleGroup, group2: StyleGroup, merged: StyleGroup)
    requires merged.Keys == group1.Keys + group2.Keys + {"base"}
    requires forall k :: k in merged ==> merged[k] == MergedAt(group1, group2, k)
    ensures merged == MergeStyles(group1, group2)
  {
    var m := MergeStyles(group1, group2);
    assert forall k :: k in merged ==> merged[k] == m[k];
  }

  /** If `group1` has no `base` or an object `base`, the merged `base` is an
      object: a non-object `base` in `group2` cannot displace it. */
  lemma MergeStylesBaseStaysObject(group1: StyleGroup, group2: StyleGroup)
    requires "base" !in group1 || IsObjectLike(group1["base"])
    ensures IsObjectLike(MergeStyles(group1, group2)["base"])
  {
  }

  /** Merging a group whose classes are all plain objects, with an object
      `base`, onto an empty group gives back that group. */
  lemma MergeStylesOntoEmpty(group2: StyleGroup)
    requires "base" in group2
    requires forall k :: k in group2 ==> group2[k].Obj?
    ensures MergeStyles(map[], group2) == group2
  {
    var r := MergeStyles(map[], group2);
    forall k | k in r
      ensures r[k] == group2[k]
    {
      if k == "base" {
        assert map[] + group2["base"].props == group2["base"].props;
      }
    }
  }

  /** Merging a group onto itself changes nothing when every class is a
      plain object: each class is shallow-merged with itself. */
  lemma MergeStylesSelf(group: StyleGroup)
    requires "base" in group
    requires forall k :: k in group ==> group[k].Obj?
    ensures MergeStyles(group, group) == group
  {
    var r := MergeStyles(group, group);
    forall k | k in r
      ensures r[k] == group[k]
    {
      assert group[k].props + group[k].props == group[k].props;
    }
  }
}
