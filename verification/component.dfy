/**
 The component helpers: the generic `action` input, the definition
 rewriters `props` and `setGroup`, and the lookups `stateOf` / `spaceOf`
 into the flat index of live component spaces, whose keys are ids built
 as `parentId + '$' + childName`.
 */
module ComponentHelpers {
  import opened Values
  import Fun

  // ---------------------------------------------------------------------
  // The generic action input

  /** `xs[i]` on an array: `undefined` past the end. */
  function At(xs: seq<Value>, i: nat): (r: Value)
    ensures i < |xs| ==> r == xs[i]
    ensures i >= |xs| ==> r == Undefined
  {
    if i < |xs| then xs[i] else Undefined
  }

  /** The action name and the value handed to it, decoded from the two
      slots of the input's message. */
  datatype ActionCall = ActionCall(name: Value, value: Value)

  /** The argument decoding of `action`: a plain name is called with the
      second slot; a `[name, value]` pair is called with its value, paired
      with the second slot when that slot is not `undefined`. */
  function DecodeAction(arg1: Value, arg2: Value): (c: ActionCall)
    ensures !arg1.Arr? ==> c == ActionCall(arg1, arg2)
    ensures arg1.Arr? ==> c.name == At(arg1.elems, 0)
    ensures arg1.Arr? && arg2 == Undefined ==> c.value == At(arg1.elems, 1)
    ensures arg1.Arr? && arg2 != Undefined ==> c.value == Arr([At(arg1.elems, 1), arg2])
  {
    if arg1.Arr? then
      var value := At(arg1.elems, 1);
      ActionCall(At(arg1.elems, 0), if arg2 != Undefined then Arr([value, arg2]) else value)
    else
      ActionCall(arg1, arg2)
  }

  /** `action(actions)([arg1, arg2])`: decodes the message and calls the
      named action constructor; a name with no action makes JavaScript throw
      (`actions[name] is not a function`). */
  function Action<U>(actions: map<string, Value -> U>, arg1: Value, arg2: Value): (r: Result<U>)
    ensures var c := DecodeAction(arg1, arg2);
      && (r.Ok? <==> ToPropertyKey(c.name) in actions)
      && (r.Ok? ==> r.value == actions[ToPropertyKey(c.name)](c.value))
    ensures r.Err? ==> r.message == "TypeError: actions[name] is not a function"
  {
    var c := DecodeAction(arg1, arg2);
    var key := ToPropertyKey(c.name);
    if key in actions then Ok(actions[key](c.value))
    else Err("TypeError: actions[name] is not a function")
  }

  /** The three message shapes the generic input accepts, on an identity
      action `a1`. */
  lemma ActionShapes()
    ensures var acts := map["a1" := (x: Value) => x];
      && Action(acts, Str("a1"), Str("someValue")) == Ok(Str("someValue"))
      && Action(acts, Arr([Str("a1"), Num(10)]), Undefined) == Ok(Num(10))
      && Action(acts, Arr([Str("a1"), Num(10)]), Num(7)) == Ok(Arr([Num(10), Num(7)]))
  {
  }

  // ---------------------------------------------------------------------
  // Component definitions

  /** A component definition. `rest` stands for the inputs, actions,
      interfaces, children and hooks, which the helpers here never touch;
      `groups` is optional, as in the definition's type. */
  datatype Component<B> = Component(name: string, state: Value, groups: Option<Object>, rest: B)

  /** `props(state)(comp)`: when both the current and the given state are
      objects, merges the given one into the current one; otherwise the
      given state replaces the current one. Nothing else changes. */
  function Props<B>(state: Value, comp: Component<B>): (r: Component<B>)
    ensures r.name == comp.name && r.groups == comp.groups && r.rest == comp.rest
    ensures IsObjectLike(comp.state) && IsObjectLike(state) ==>
      && r.state.Obj?
      && r.state.props.Keys == OwnProps(comp.state).Keys + OwnProps(state).Keys
      && (forall p :: p in OwnProps(state) ==> r.state.props[p] == OwnProps(state)[p])
      && (forall p :: p in OwnProps(comp.state) && p !in OwnProps(state) ==> r.state.props[p] == OwnProps(comp.state)[p])
    ensures !(IsObjectLike(comp.state) && IsObjectLike(state)) ==> r.state == state
  {
    if IsObjectLike(comp.state) && IsObjectLike(state) then
      comp.(state := Assign(comp.state, state))
    else
      comp.(state := state)
  }

  /** Giving a component the state it already has, when that state is a
      plain object, changes nothing. */
  lemma PropsSameState<B>(comp: Component<B>)
    requires comp.state.Obj?
    ensures Props(comp.state, comp) == comp
  {
    assert comp.state.props + comp.state.props == comp.state.props;
  }

  /** The `props` example: `{count: 4}` over `{count: 0, data: 10}` keeps
      `data` and updates `count`; a number replaces the state outright. */
  lemma PropsExamples<B>(comp: Component<B>)
    requires comp.state == Obj(map["count" := Num(0), "data" := Num(10)])
    ensures Props(Obj(map["count" := Num(4)]), comp).state.props["data"] == Num(10)
    ensures Props(Obj(map["count" := Num(4)]), comp).state.props["count"] == Num(4)
    ensures Props(Num(5), comp).state == Num(5)
  {
  }

  /** `setGroup(name, group)(comp)`: replaces one group wholesale. A
      component without a `groups` object makes the assignment throw. */
  function SetGroup<B>(name: string, group: Value, comp: Component<B>): (r: Result<Component<B>>)
    ensures r.Err? <==> comp.groups.None?
    ensures r.Err? ==> r.message == "TypeError: Cannot set properties of undefined (setting '" + name + "')"
    ensures r.Ok? ==>
      && r.value.name == comp.name && r.value.state == comp.state && r.value.rest == comp.rest
      && r.value.groups.Some?
      && name in r.value.groups.value && r.value.groups.value[name] == group
      && r.value.groups.value.Keys == comp.groups.value.Keys + {name}
      && (forall g :: g in comp.groups.value && g != name ==> r.value.groups.value[g] == comp.groups.value[g])
  {
    match comp.groups
    case None => Err("TypeError: Cannot set properties of undefined (setting '" + name + "')")
    case Some(groups) => Ok(comp.(groups := Some(groups[name := group])))
  }

  /** `setGroup` on the groups object is `assoc`. */
  lemma SetGroupIsAssoc<B>(name: string, group: Value, comp: Component<B>)
    requires comp.groups.Some?
    ensures SetGroup(name, group, comp).Ok?
    ensures SetGroup(name, group, comp).value.groups == Some(Fun.Assoc(name, group, comp.groups.value))
  {
  }

  // ---------------------------------------------------------------------
  // Addressing the flat component index

  /** The separator between a parent id and a child name. */
  const Separator: char := '$'

  /** The id of child `name` of the space `parentId`, as `toChild` and
      `stateOf` build it. */
  function ChildId(parentId: string, name: string): (id: string)
    ensures |id| == |parentId| + 1 + |name|
    ensures id[..|parentId|] == parentId
    ensures id[|parentId|] == Separator
    ensures id[|parentId| + 1..] == name
  {
    parentId + [Separator] + name
  }

  /** Under one parent, distinct child names give distinct ids. */
  lemma ChildIdInjective(parentId: string, a: string, b: string)
    ensures ChildId(parentId, a) == ChildId(parentId, b) <==> a == b
  {
    if ChildId(parentId, a) == ChildId(parentId, b) {
      assert a == ChildId(parentId, a)[|parentId| + 1..];
    }
  }

  /** Across parents the flat ids are not unique when a child name itself
      contains the separator. */
  lemma ChildIdAmbiguous()
    ensures ChildId("a", "b$c") == ChildId("a$b", "c")
  {
  }

  /** A live component space; only its state is read here. */
  datatype Space = Space(state: Value)

  /** The part of a component context the lookups use: its own id and the
      flat index of all live spaces. */
  datatype Context = Context(id: string, components: map<string, Space>)

  /** `spaceOf(ctx)`: the context's own space, if it is live. */
  function SpaceOf(ctx: Context): (r: Option<Space>)
    ensures r.Some? <==> ctx.id in ctx.components
    ensures r.Some? ==> r.value == ctx.components[ctx.id]
  {
    if ctx.id in ctx.components then Some(ctx.components[ctx.id]) else None
  }

  /** Result of `stateOf`: the state, or the error it logs (source and
      description) before returning `undefined`. */
  datatype StateLookup = Found(state: Value) | Missing(source: string, description: string)

  /** A child name that addresses a child: given and non-empty. */
  predicate NamesChild(name: Option<string>) {
    name.Some? && name.value != ""
  }

  /** `stateOf(ctx, name?)`. */
  function StateOf(ctx: Context, name: Option<string>): (r: StateLookup)
    ensures NamesChild(name) ==> (r.Found? <==> ChildId(ctx.id, name.value) in ctx.components)
    ensures NamesChild(name) && r.Found? ==> r.state == ctx.components[ChildId(ctx.id, name.value)].state
    ensures !NamesChild(name) ==> (r.Found? <==> ctx.id in ctx.components)
    ensures !NamesChild(name) && r.Found? ==> r.state == ctx.components[ctx.id].state
    ensures r.Missing? ==> r.source == "stateOf"
    ensures r.Missing? && NamesChild(name) ==>
      r.description == "there are no child '" + name.value + "' in space '" + ctx.id + "'"
    ensures r.Missing? && !NamesChild(name) ==> r.description == "there are no space '" + ctx.id + "'"
  {
    var id := if NamesChild(name) then ChildId(ctx.id, name.value) else ctx.id;
    if id in ctx.components then Found(ctx.components[id].state)
    else if NamesChild(name) then
      Missing("stateOf", "there are no child '" + name.value + "' in space '" + ctx.id + "'")
    else
      Missing("stateOf", "there are no space '" + id + "'")
  }

  /** Without a child name `stateOf` reads the context's own space, the one
      `spaceOf` returns, and an empty name counts as no name. */
  lemma StateOfOwnSpace(ctx: Context)
    ensures StateOf(ctx, Some("")) == StateOf(ctx, None)
    ensures StateOf(ctx, None).Found? <==> SpaceOf(ctx).Some?
    ensures SpaceOf(ctx).Some? ==> StateOf(ctx, None).state == SpaceOf(ctx).value.state
  {
  }

  /** A child's state read from its parent is the state the child reads
      from its own context. */
  lemma StateOfChildIsChildsOwn(ctx: Context, name: string)
    requires name != ""
    ensures StateOf(ctx, Some(name)).Found? <==> StateOf(ctx.(id := ChildId(ctx.id, name)), None).Found?
    ensures StateOf(ctx, Some(name)).Found? ==>
      StateOf(ctx, Some(name)).state == StateOf(ctx.(id := ChildId(ctx.id, name)), None).state
  {
  }
}
