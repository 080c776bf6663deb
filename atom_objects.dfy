/** Construction of entity instances and item access on simple atoms:
    `atom.__init__`, `simple_atom.__init__`, `state`, `__getitem__` and
    `__setitem__` (peacock/atom.py:26-39, 76-77, 133-147).

    An instance under construction or mutation is an object; `Snapshot`
    gives the value an enclosing instance holds and `as_dict` exports. */
module AtomObjects {
  import opened PyDicts
  import opened AtomModel

  /** A rule `(key, values) -> names` fires for the construction arguments
      when `key` was supplied and its value is one of `values`. */
  predicate Fires(trigger: (string, seq<string>), args: Dict<string, Value>) {
    var v := Get(args, trigger.0);
    v.Some? && v.value.VStr? && v.value.s in trigger.1
  }

  /** The right-hand lists of the firing rules, in table order. */
  function Triggered(rules: RuleTable, args: Dict<string, Value>): seq<string> {
    if rules == [] then []
    else
      var last := rules[|rules| - 1];
      Triggered(rules[..|rules| - 1], args) + (if Fires(last.0, args) then last.1 else [])
  }

  /** A name is added by the rule pass iff some firing rule lists it; a rule
      whose trigger attribute was not supplied adds nothing. */
  lemma {:induction false} TriggeredNames(rules: RuleTable, args: Dict<string, Value>, name: string)
    ensures name in Triggered(rules, args) <==>
      exists i :: 0 <= i < |rules| && Fires(rules[i].0, args) && name in rules[i].1
    ensures forall i :: 0 <= i < |rules| && !HasKey(args, rules[i].0.0) ==> !Fires(rules[i].0, args)
  {
    if rules != [] {
      var init := rules[..|rules| - 1];
      TriggeredNames(init, args, name);
      assert forall i :: 0 <= i < |init| ==> init[i] == rules[i];
    }
  }

  lemma TriggeredStep(rules: RuleTable, i: nat, args: Dict<string, Value>)
    requires i < |rules|
    ensures Triggered(rules[..i + 1], args) ==
      Triggered(rules[..i], args) + (if Fires(rules[i].0, args) then rules[i].1 else [])
  {
    assert rules[..i + 1][..i] == rules[..i];
  }

  /** The loop of `atom.__init__` over `_conditional_required`: extend
      `required` by the list of every rule that fires, in table order. */
  method AddConditionalRequired(required: seq<string>, rules: RuleTable, args: Dict<string, Value>)
    returns (req: seq<string>)
    ensures req == required + Triggered(rules, args)
  {
    req := required;
    var i := 0;
    while i < |rules|
      invariant 0 <= i <= |rules|
      invariant req == required + Triggered(rules[..i], args)
    {
      TriggeredStep(rules, i, args);
      if Fires(rules[i].0, args) {
        req := req + rules[i].1;
      }
      i := i + 1;
    }
    assert rules[..|rules|] == rules;
  }

  /** The instance's `_required` after construction: the class's list,
      then the lists of the rules that fired. */
  function EffectiveRequired(ty: EntityType, args: Dict<string, Value>): seq<string> {
    ty.required + Triggered(ty.conditionalRequired, args)
  }

  /** The arguments `atom.__init__` works with: `kwargs.update(input_dict)`,
      so `input_dict` wins on a shared key. */
  function AtomArgs(inputDict: Option<Dict<string, Value>>, kwargs: Dict<string, Value>): (args: Dict<string, Value>)
    requires DistinctKeys(kwargs)
    requires inputDict.Some? ==> DistinctKeys(inputDict.value)
    ensures DistinctKeys(args)
    ensures forall k ::
      Get(args, k) == if inputDict.Some? && HasKey(inputDict.value, k) then Get(inputDict.value, k) else Get(kwargs, k)
  {
    match inputDict
    case None => kwargs
    case Some(d) => Update(kwargs, d)
  }

  /** The `data` of `simple_atom.__init__`: a fresh dictionary updated with
      `input_dict`, then with the keyword arguments, so keywords win. */
  function SimpleData(inputDict: Option<Dict<string, Value>>, kwargs: Dict<string, Value>): (data: Dict<string, Value>)
    requires DistinctKeys(kwargs)
    requires inputDict.Some? ==> DistinctKeys(inputDict.value)
    ensures DistinctKeys(data)
    ensures forall k ::
      Get(data, k) == (if HasKey(kwargs, k) then Get(kwargs, k)
                       else if inputDict.Some? then Get(inputDict.value, k)
                       else None)
  {
    var start := match inputDict case None => [] case Some(d) => Update([], d);
    Update(start, kwargs)
  }

  /** The arguments set none of the engine's own tables. Passed at
      construction, `_required`, `_name_mappings` and `_conditional_required`
      would replace the instance's list and tables; that is not modelled. */
  predicate NoEngineOverrides(args: Dict<string, Value>) {
    !HasKey(args, "_required") && !HasKey(args, "_name_mappings") && !HasKey(args, "_conditional_required")
  }

  /** The instance `atom.__init__` builds. */
  function Constructed(ty: EntityType, inputDict: Option<Dict<string, Value>>, kwargs: Dict<string, Value>): Atom
    requires DistinctKeys(kwargs)
    requires inputDict.Some? ==> DistinctKeys(inputDict.value)
    requires NoEngineOverrides(AtomArgs(inputDict, kwargs))
  {
    var args := AtomArgs(inputDict, kwargs);
    Atom(ty, args, EffectiveRequired(ty, args))
  }

  /** The instance `simple_atom.__init__` builds; it never runs the rule
      pass of `atom.__init__`. */
  function SimpleConstructed(ty: EntityType, inputDict: Option<Dict<string, Value>>, kwargs: Dict<string, Value>): Atom
    requires DistinctKeys(kwargs)
    requires inputDict.Some? ==> DistinctKeys(inputDict.value)
  {
    Atom(ty, SimpleData(inputDict, kwargs), ty.required)
  }

  /** An instance of a fixed-schema entity class (a subclass of `atom`).
      `required` and `nameMappings` are the instance's own `_required` and
      `_name_mappings`: they start as the class's and an assignment to the
      instance replaces them, shadowing the class table. */
  class AtomObject {
    const ty: EntityType
    var state: Dict<string, Value>
    var required: seq<string>
    var nameMappings: map<string, string>

    ghost predicate Valid()
      reads this
    {
      !ty.simple && DistinctKeys(state)
    }

    /** The value this instance is, for nesting and export: the class with
        the renames the instance currently reads. */
    function Snapshot(): Atom
      reads this
    {
      Atom(ty.(nameMappings := nameMappings), state, required)
    }

    /** `atom.__init__`: merge the arguments, set them, then append the
        right-hand list of every rule that fires for them. */
    constructor (ty: EntityType, inputDict: Option<Dict<string, Value>>, kwargs: Dict<string, Value>)
      requires !ty.simple
      requires DistinctKeys(kwargs)
      requires inputDict.Some? ==> DistinctKeys(inputDict.value)
      requires NoEngineOverrides(AtomArgs(inputDict, kwargs))
      ensures Valid()
      ensures Snapshot() == Constructed(ty, inputDict, kwargs)
    {
      var args := kwargs;
      if inputDict.Some? {
        args := Update(args, inputDict.value);
      }
      assert args == AtomArgs(inputDict, kwargs);
      var req := AddConditionalRequired(ty.required, ty.conditionalRequired, args);
      this.ty := ty;
      state := args;
      required := req;
      nameMappings := ty.nameMappings;
    }

    /** `obj.name = v` after construction, for an attribute other than the
        engine's own `_required` and `_name_mappings` (see `SetRequired` and
        `SetNameMappings`): the attribute changes, and the `_required` list
        stays as the constructor's rule pass left it, even when `name` is
        the trigger of a rule. */
    method Assign(name: string, v: Value)
      requires Valid()
      requires name != "_required" && name != "_name_mappings"
      modifies this
      ensures Valid()
      ensures state == Put(old(state), name, v)
      ensures required == old(required) && nameMappings == old(nameMappings)
      ensures Get(state, name) == Some(v)
      ensures forall k :: k != name ==> Get(state, k) == Get(old(state), k)
    {
      state := Put(state, name, v);
    }

    /** `obj._required = names`: validation and the inclusion rule of the
        export read the new list from then on. */
    method SetRequired(names: seq<string>)
      requires Valid()
      modifies this
      ensures Valid()
      ensures Snapshot() == old(Snapshot()).(required := names)
    {
      required := names;
    }

    /** `obj._name_mappings = m`: the export renames by the instance's table
        from then on, not by the class's. */
    method SetNameMappings(m: map<string, string>)
      requires Valid()
      modifies this
      ensures Valid()
      ensures Snapshot() == old(Snapshot()).(ty := old(Snapshot()).ty.(nameMappings := m))
    {
      nameMappings := m;
    }
  }

  /** An instance of an open, string-keyed entity class (a subclass of
      `simple_atom`): its only storage is `data`. */
  class SimpleAtomObject {
    const ty: EntityType
    var data: Dict<string, Value>

    ghost predicate Valid()
      reads this
    {
      ty.simple && DistinctKeys(data)
    }

    /** `simple_atom.__init__`: keywords win over `input_dict`. */
    constructor (ty: EntityType, inputDict: Option<Dict<string, Value>>, kwargs: Dict<string, Value>)
      requires ty.simple
      requires DistinctKeys(kwargs)
      requires inputDict.Some? ==> DistinctKeys(inputDict.value)
      ensures Valid()
      ensures Snapshot() == SimpleConstructed(ty, inputDict, kwargs)
    {
      var d: Dict<string, Value> := [];
      if inputDict.Some? {
        d := Update(d, inputDict.value);
      }
      d := Update(d, kwargs);
      this.ty := ty;
      data := d;
    }

    /** `state()`: a copy of `data`, with exactly its keys and values. */
    function State(): (s: Dict<string, Value>)
      reads this
      ensures forall k :: HasKey(s, k) <==> HasKey(data, k)
      ensures forall k :: Get(s, k) == Get(data, k)
    {
      data[..]
    }

    /** `self[key]`: the stored value, or `KeyNotFound` for an absent key. */
    function GetItem(key: string): (r: Result<Value>)
      reads this
      ensures r.Ok? <==> HasKey(data, key)
      ensures r.Ok? ==> Get(data, key) == Some(r.value)
      ensures r.Err? ==> r.error == KeyNotFound(key)
    {
      match Get(State(), key)
      case Some(v) => Ok(v)
      case None => Err(KeyNotFound(key))
    }

    /** `self[key] = val`: afterwards `self[key]` is `val` and every other
        key reads as before. */
    method SetItem(key: string, val: Value)
      requires Valid()
      modifies this
      ensures Valid()
      ensures data == Put(old(data), key, val)
      ensures GetItem(key) == Ok(val)
      ensures forall k :: k != key ==> GetItem(k) == old(GetItem(k))
    {
      data := Put(data, key, val);
    }

    /** The value this instance is, for nesting and export. */
    function Snapshot(): Atom
      reads this
    {
      Atom(ty, data, ty.required)
    }
  }
}
