/**
 The root component of the complex-list example: a text box whose Enter
 key appends a numbered item. Its state is `{text, numItems, items}`;
 `items` maps the decimal key of each live item's number to that number.
 */
module ComplexListRoot {
  import opened Values
  import Fun
  import ComponentHelpers

  /** The root state `{text, numItems, items}`. */
  datatype RootState = RootState(text: Value, numItems: int, items: Object)

  /** The initial state `{text: '', numItems: 0, items: {}}`. */
  const Initial: RootState := RootState(Str(""), 0, map[])

  /** The state as the plain object the actions receive. */
  function ToObject(s: RootState): Object {
    map["text" := s.text, "numItems" := Num(s.numItems), "items" := Obj(s.items)]
  }

  /** The root's actions, each already applied to its argument. */
  datatype RootAction = SetText(text: Value) | New | Remove(idx: Value)

  /** The `actions` table as the generic `action` input sees it: each name
      maps its argument to the update. `New` ignores its argument. */
  const Actions: map<string, Value -> RootAction> :=
    map["SetText" := (t: Value) => SetText(t), "New" := (_: Value) => New, "Remove" := (i: Value) => Remove(i)]

  /** Applies one action to the state. `New` stores the current count under
      its decimal key and then increments the count; `Remove` deletes the
      key its argument denotes. */
  function Apply(a: RootAction, s: RootState): (r: RootState)
    ensures r.numItems >= s.numItems
    ensures !a.New? ==> r.numItems == s.numItems
    ensures !a.SetText? ==> r.text == s.text
    ensures a.SetText? ==> r.text == a.text && r.items == s.items
  {
    match a
    case SetText(t) => s.(text := t)
    case New =>
      s.(items := s.items[ToPropertyKey(Num(s.numItems)) := Num(s.numItems)], numItems := s.numItems + 1)
    case Remove(idx) => s.(items := s.items - {ToPropertyKey(idx)})
  }

  /** Applies a list of actions in order, as the runtime does with the list
      an input returns. */
  function ApplyAll(acts: seq<RootAction>, s: RootState): (r: RootState)
    ensures r.numItems >= s.numItems
    ensures (forall i :: 0 <= i < |acts| ==> !acts[i].New?) ==> r.numItems == s.numItems
    ensures (forall i :: 0 <= i < |acts| ==> !acts[i].SetText?) ==> r.text == s.text
    ensures |acts| == 1 ==> r == Apply(acts[0], s)
    decreases |acts|
  {
    if |acts| == 0 then s else ApplyAll(acts[1..], Apply(acts[0], s))
  }

  /** Every item sits under the decimal key of its own number, and that
      number is below `numItems`. */
  predicate Valid(s: RootState) {
    && s.numItems >= 0
    && forall k :: k in s.items ==>
         ParseKey(k) < s.numItems && NatKey(ParseKey(k)) == k && s.items[k] == Num(ParseKey(k))
  }

  lemma InitialValid()
    ensures Valid(Initial)
  {
  }

  /** `SetText` is `assoc('text')` on the state object. */
  lemma SetTextIsAssoc(t: Value, s: RootState)
    ensures ToObject(Apply(SetText(t), s)) == Fun.Assoc("text", t, ToObject(s))
  {
  }

  /** `New` adds exactly the item `numItems -> numItems`, under a key no
      existing item uses, and counts it. */
  lemma NewAddsOneItem(s: RootState)
    requires Valid(s)
    ensures NatKey(s.numItems) !in s.items
    ensures Apply(New, s).numItems == s.numItems + 1
    ensures Apply(New, s).items.Keys == s.items.Keys + {NatKey(s.numItems)}
    ensures Apply(New, s).items[NatKey(s.numItems)] == Num(s.numItems)
    ensures forall k :: k in s.items ==> Apply(New, s).items[k] == s.items[k]
    ensures |Apply(New, s).items| == |s.items| + 1
  {
    ParseNatKey(s.numItems);
  }

  /** `Remove(idx)` deletes the key `idx` denotes and nothing else; on an
      absent key it changes nothing. */
  lemma RemoveDeletesOneKey(idx: Value, s: RootState)
    ensures Apply(Remove(idx), s).items.Keys == s.items.Keys - {ToPropertyKey(idx)}
    ensures forall k :: k in Apply(Remove(idx), s).items ==> Apply(Remove(idx), s).items[k] == s.items[k]
    ensures Apply(Remove(idx), s).text == s.text && Apply(Remove(idx), s).numItems == s.numItems
    ensures ToPropertyKey(idx) !in s.items ==> Apply(Remove(idx), s) == s
  {
  }

  /** Removing an item by its number deletes that number's item. */
  lemma RemoveByNumber(n: nat, s: RootState)
    requires Valid(s)
    ensures NatKey(n) !in Apply(Remove(Num(n)), s).items
    ensures |Apply(Remove(Num(n)), s).items| == if NatKey(n) in s.items then |s.items| - 1 else |s.items|
  {
  }

  /** Every action keeps the item invariant. */
  lemma ApplyKeepsValid(a: RootAction, s: RootState)
    requires Valid(s)
    ensures Valid(Apply(a, s))
  {
    if a.New? {
      var r := Apply(a, s);
      var key := NatKey(s.numItems);
      ParseNatKey(s.numItems);
      forall k | k in r.items
        ensures ParseKey(k) < r.numItems && NatKey(ParseKey(k)) == k && r.items[k] == Num(ParseKey(k))
      {
        if k != key {
          assert k in s.items;
        }
      }
    }
  }

  /** Any sequence of actions keeps the invariant and never lowers the count. */
  lemma {:induction false} ApplyAllKeepsValid(acts: seq<RootAction>, s: RootState)
    requires Valid(s)
    ensures Valid(ApplyAll(acts, s))
    ensures ApplyAll(acts, s).numItems >= s.numItems
    decreases |acts|
  {
    if |acts| > 0 {
      ApplyKeepsValid(acts[0], s);
      ApplyAllKeepsValid(acts[1..], Apply(acts[0], s));
    }
  }

  /** The key code of the Enter key. */
  const EnterKey: int := 13

  /** `inputKeyup([idx, [keyCode, text]])`: Enter on a non-empty text
      clears the text and adds an item; any other key stores the text.
      The source returns that single action bare rather than in a list;
      the runtime applies a bare action exactly as a one-element list, so
      both are written here as lists (`ApplyAll` of `[a]` is `Apply(a)`). */
  function InputKeyup(keyCode: Value, text: Value): (r: seq<RootAction>)
    ensures |r| == 2 <==> keyCode == Num(EnterKey) && text != Str("")
    ensures |r| == 2 ==> r == [SetText(Str("")), New]
    ensures |r| != 2 ==> r == [SetText(text)]
  {
    if keyCode == Num(EnterKey) && text != Str("") then
      [SetText(Str("")), New]
    else
      [SetText(text)]
  }

  /** What a key-up does to a valid state: on Enter with text, the text is
      emptied and one item added; otherwise only the text changes. */
  lemma InputKeyupEffect(keyCode: Value, text: Value, s: RootState)
    requires Valid(s)
    ensures var r := ApplyAll(InputKeyup(keyCode, text), s);
      && Valid(r)
      && (keyCode == Num(EnterKey) && text != Str("") ==>
            r.text == Str("") && r.numItems == s.numItems + 1 && r.items == Apply(New, s).items)
      && (!(keyCode == Num(EnterKey) && text != Str("")) ==>
            r == s.(text := text))
  {
    var acts := InputKeyup(keyCode, text);
    ApplyAllKeepsValid(acts, s);
    if |acts| == 2 {
      var s1 := Apply(SetText(Str("")), s);
      assert acts[1..] == [New];
      assert acts[1..][1..] == [];
      assert ApplyAll(acts[1..], s1) == ApplyAll([], Apply(New, s1));
      assert ApplyAll(acts, s) == Apply(New, s1);
    } else {
      assert ApplyAll(acts, s) == Apply(SetText(text), s);
    }
  }

  /** The generic `action` input reaches each of the root's actions by name,
      and rejects any other name that is not an own key of the table. Names
      inherited from `Object.prototype` (such as `toString`) do not throw in
      JavaScript; the model has no prototype chain, so it rejects them too. */
  lemma ActionInputReachesActions(name: string, v: Value)
    ensures var r := ComponentHelpers.Action(Actions, Str(name), v);
      && (r.Ok? <==> name in {"SetText", "New", "Remove"})
      && (name == "SetText" ==> r == Ok(SetText(v)))
      && (name == "New" ==> r == Ok(New))
      && (name == "Remove" ==> r == Ok(Remove(v)))
  {
  }
}
