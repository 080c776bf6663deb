/** The values the engine of peacock/atom.py works on.

    An entity class (a subclass of `atom` or `simple_atom`) is an
    `EntityType`: its declared attributes with their Traits kinds, the
    class-level `_required` list, the `_conditional_required` rule table and
    the `_name_mappings` table. An instance is an `Atom`: its class, the
    attributes that were set on it (what `vars(self)` holds, or the `data`
    dictionary of a simple atom), in iteration order, and its own
    `_required` list as the constructor left it. Attribute values form a
    finite tree, so nesting is always well founded. */
module AtomModel {
  import opened PyDicts

  /** The Traits type an attribute is declared with. Type checking is not
      modelled; the kind fixes the attribute's default value and is named in
      validation errors. `StrTrait`, `BoolTrait`, `IntTrait` and
      `FloatTrait` stand for `Str(None)`, `Bool(None)`, `Int(None)` and
      `Float(None)`, the only forms the schema tables use. */
  datatype TraitKind =
    | StrTrait
    | BoolTrait
    | IntTrait
    | FloatTrait
    | AnyTrait
    | EnumTrait(choices: seq<Option<string>>)
    | ListTrait
    | DictTrait
    | InstanceTrait(cls: string)  // `Instance(This)` included: its class is named "This"

  /** `_conditional_required`: `(trigger attribute, trigger values) -> names`. */
  type RuleTable = Dict<(string, seq<string>), seq<string>>

  datatype EntityType = EntityType(
    name: string,                          // the class name, used in error messages
    traits: map<string, TraitKind>,        // declared attributes, inherited ones included
    required: seq<string>,                 // the class-level `_required`
    conditionalRequired: RuleTable,        // `_conditional_required`
    nameMappings: map<string, string>,     // `_name_mappings`
    simple: bool)                          // a `simple_atom` subclass

  /** An attribute value. `VOpaque` stands for floats and `Any` values, on
      which the engine does no arithmetic. `VDict` is a plain dictionary,
      both as an attribute value and as what `as_dict` produces. */
  datatype Value =
    | VNone
    | VStr(s: string)
    | VInt(i: int)
    | VBool(b: bool)
    | VOpaque(token: nat)
    | VList(items: seq<Value>)
    | VDict(entries: map<string, Value>)
    | VAtom(atom: Atom)

  /** An entity instance: its class, its set attributes in iteration order,
      and its `_required` list. */
  datatype Atom = Atom(ty: EntityType, state: Dict<string, Value>, required: seq<string>)

  datatype Error =
    | MissingRequired(entity: string, attribute: string, declared: TraitKind)  // the ValueError of `_valididate_required`
    | UnknownAttribute(entity: string, attribute: string)                  // `self.get` of an undeclared public name
    | EmptyKey(entity: string)                                              // `key[0]` on an empty exported name
    | KeyNotFound(key: string)                                              // `simple_atom[key]` of an absent key

  datatype Result<+T> = Ok(value: T) | Err(error: Error) {
    predicate IsFailure() {
      Err?
    }

    function PropagateFailure<U>(): Result<U>
      requires Err?
    {
      Err(error)
    }

    function Extract(): T
      requires Ok?
    {
      value
    }
  }

  datatype Outcome = Pass | Fail(error: Error)

  /** The value an attribute reads as while it has not been set. `Instance`
      traits built with default arguments, such as `Instance(License, ())`,
      would create an instance lazily; that is not modelled and they read as
      None here. */
  function Default(t: TraitKind): (r: Value)
    ensures r == VNone <==> !(t.ListTrait? || t.DictTrait? || (t.EnumTrait? && |t.choices| > 0 && t.choices[0].Some?))
    ensures t.ListTrait? ==> r == VList([])
    ensures t.DictTrait? ==> r == VDict(map[])
    ensures t.EnumTrait? && |t.choices| > 0 && t.choices[0].Some? ==> r == VStr(t.choices[0].value)
  {
    match t
    case EnumTrait(choices) =>
      if |choices| > 0 && choices[0].Some? then VStr(choices[0].value) else VNone
    case ListTrait => VList([])
    case DictTrait => VDict(map[])
    case _ => VNone
  }

  /** The external key of an attribute: `_name_mappings.get(name, name)`. */
  function MappedName(mappings: map<string, string>, name: string): string {
    if name in mappings then mappings[name] else name
  }
}
