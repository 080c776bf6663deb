/** Validation and export of an entity instance: `atom._valididate_required`
    and `atom.as_dict` (peacock/atom.py:79-125).

    `CheckRequired` and `ExportAtom` are the specification; the methods
    `ValidateRequired` and `AsDict` follow the source's loops and are proved
    to compute exactly them. The lemmas state what an export promises: it is
    all-or-nothing, its keys are the mapped, non-hidden attribute names, an
    entry appears iff its value is defined or its key is required, and
    lists are converted element by element. */
module AtomExport {
  import opened PyDicts
  import opened AtomModel

  /** The attributes `self.get` can see: the set attributes of a
      fixed-schema atom, and only the `data` trait of a simple atom. */
  function AttributeView(a: Atom): Dict<string, Value> {
    if a.ty.simple then [("data", VDict(ToMap(a.state)))] else a.state
  }

  predicate IsPrivate(name: string) {
    |name| > 0 && name[0] == '_'
  }

  /** `self.get(key)[key]`: the set value, else the declared default; an
      undeclared private name reads as None (the wildcard trait of
      `HasPrivateTraits`), an undeclared public name cannot be read. */
  function Resolve(a: Atom, key: string): (r: Option<Value>)
    ensures r.None? <==> !HasKey(AttributeView(a), key) && key !in a.ty.traits && !IsPrivate(key)
    ensures HasKey(AttributeView(a), key) ==> r == Get(AttributeView(a), key)
    ensures a.ty.simple && key == "data" ==> r == Some(VDict(ToMap(a.state)))
    ensures a.ty.simple && key != "data" ==> !HasKey(AttributeView(a), key)
    ensures !HasKey(AttributeView(a), key) && key in a.ty.traits ==> r == Some(Default(a.ty.traits[key]))
  {
    match Get(AttributeView(a), key)
    case Some(v) => Some(v)
    case None =>
      if key in a.ty.traits then Some(Default(a.ty.traits[key]))
      else if IsPrivate(key) then Some(VNone)
      else None
  }

  function TraitOf(a: Atom, key: string): TraitKind {
    if key in a.ty.traits then a.ty.traits[key] else AnyTrait
  }

  /** The check `_valididate_required` makes of one required name. */
  function CheckName(a: Atom, key: string): Outcome {
    match Resolve(a, key)
    case None => Fail(UnknownAttribute(a.ty.name, key))
    case Some(v) =>
      if v == VNone then Fail(MissingRequired(a.ty.name, key, TraitOf(a, key))) else Pass
  }

  /** The names of `names` checked in order; the first failure is reported. */
  function CheckRequired(a: Atom, names: seq<string>): Outcome {
    if names == [] then Pass
    else if CheckName(a, names[0]).Fail? then CheckName(a, names[0])
    else CheckRequired(a, names[1..])
  }

  /** Validation passes iff every name passes, and a failure is the failure
      of the first name that fails. */
  lemma {:induction false} CheckRequiredFirstFailure(a: Atom, names: seq<string>)
    ensures CheckRequired(a, names) == Pass <==> forall i :: 0 <= i < |names| ==> CheckName(a, names[i]) == Pass
    ensures CheckRequired(a, names).Fail? ==>
      exists i :: 0 <= i < |names| && CheckRequired(a, names) == CheckName(a, names[i]) &&
        forall j :: 0 <= j < i ==> CheckName(a, names[j]) == Pass
  {
    if names != [] {
      CheckRequiredFirstFailure(a, names[1..]);
      assert forall i :: 0 < i < |names| ==> names[i] == names[1..][i - 1];
      if CheckName(a, names[0]).Pass? && CheckRequired(a, names[1..]).Fail? {
        var i :| 0 <= i < |names[1..]| && CheckRequired(a, names[1..]) == CheckName(a, names[1..][i]) &&
          forall j :: 0 <= j < i ==> CheckName(a, names[1..][j]) == Pass;
        assert CheckRequired(a, names) == CheckName(a, names[i + 1]);
      }
    }
  }

  /** An unset Str, Bool, Int or Float attribute reads as None, so when it
      is required its check fails naming it and its declared kind. */
  lemma UnsetScalarIsMissing(a: Atom, name: string)
    requires !a.ty.simple && !HasKey(a.state, name)
    requires name in a.ty.traits && a.ty.traits[name] in {StrTrait, BoolTrait, IntTrait, FloatTrait}
    ensures CheckName(a, name) == Fail(MissingRequired(a.ty.name, name, a.ty.traits[name]))
  {
  }

  /** `_valididate_required`: walk the instance's `_required` list in order
      and stop at the first name that reads as None. */
  method ValidateRequired(a: Atom) returns (o: Outcome)
    ensures o == CheckRequired(a, a.required)
    ensures o == Pass <==> forall i :: 0 <= i < |a.required| ==> CheckName(a, a.required[i]) == Pass
    ensures o.Fail? ==>
      exists i :: 0 <= i < |a.required| && o == CheckName(a, a.required[i]) &&
        forall j :: 0 <= j < i ==> CheckName(a, a.required[j]) == Pass
  {
    CheckRequiredFirstFailure(a, a.required);
    var i := 0;
    while i < |a.required|
      invariant 0 <= i <= |a.required|
      invariant forall j :: 0 <= j < i ==> CheckName(a, a.required[j]) == Pass
      invariant CheckRequired(a, a.required[i..]) == CheckRequired(a, a.required)
    {
      var key := a.required[i];
      var check := CheckName(a, key);
      assert a.required[i..][1..] == a.required[i + 1..];
      if check.Fail? {
        return check;
      }
      i := i + 1;
    }
    return Pass;
  }

  // ---------------------------------------------------------------------
  // Conversion: the specification of `as_dict`
  // ---------------------------------------------------------------------

  /** What `as_dict` makes of one attribute value: a nested atom becomes its
      own export, a list is converted one level deep, anything else is kept. */
  function ConvertValue(v: Value): Result<Value>
    decreases v, 2, 0
  {
    match v
    case VAtom(c) =>
      var out :- ExportAtom(c);
      Ok(VDict(out))
    case VList(items) =>
      var converted :- ConvertItems(items, |items|);
      Ok(VList(converted))
    case _ => Ok(v)
  }

  /** The first `n` elements of a list, converted: atoms by their export,
      every other element (nested lists included) as it is. */
  function ConvertItems(items: seq<Value>, n: nat): Result<seq<Value>>
    requires n <= |items|
    decreases VList(items), 1, n
  {
    if n == 0 then Ok([])
    else
      var done :- ConvertItems(items, n - 1);
      match items[n - 1]
      case VAtom(c) =>
        var out :- ExportAtom(c);
        Ok(done + [VDict(out)])
      case _ => Ok(done + [items[n - 1]])
  }

  /** `as_dict`: validate, then export the set attributes in order. */
  function ExportAtom(a: Atom): Result<map<string, Value>>
    decreases VAtom(a), 1, 0
  {
    match CheckRequired(a, a.required)
    case Fail(e) => Err(e)
    case Pass => ExportPrefix(a, |a.state|)
  }

  /** The exported key of the attribute at position `i`. */
  function KeyAt(a: Atom, i: nat): string
    requires i < |a.state|
  {
    MappedName(a.ty.nameMappings, a.state[i].0)
  }

  /** The inclusion rule of `as_dict` for a non-empty exported key. */
  predicate Emitted(key: string, converted: Value, required: seq<string>)
    requires |key| > 0
  {
    key[0] != '_' && (converted != VNone || key in required)
  }

  /** The output after the first `n` attributes: map the name, convert the
      value, fail on an empty key, skip a hidden key, and store the entry
      when its value is defined or its key is required. */
  function ExportPrefix(a: Atom, n: nat): Result<map<string, Value>>
    requires n <= |a.state|
    decreases VAtom(a), 0, n
  {
    if n == 0 then Ok(map[])
    else
      var out :- ExportPrefix(a, n - 1);
      var key := KeyAt(a, n - 1);
      var val :- ConvertValue(a.state[n - 1].1);
      if |key| == 0 then Err(EmptyKey(a.ty.name))
      else if Emitted(key, val, a.required) then Ok(out[key := val])
      else Ok(out)
  }

  // ---------------------------------------------------------------------
  // What an export promises
  // ---------------------------------------------------------------------

  /** Attribute `i` is written to the output under `key`. */
  ghost predicate EmitsAt(a: Atom, i: int, key: string) {
    && 0 <= i < |a.state|
    && KeyAt(a, i) == key
    && |key| > 0
    && ConvertValue(a.state[i].1).Ok?
    && Emitted(key, ConvertValue(a.state[i].1).value, a.required)
  }

  /** The output of the first `n` attributes, exactly: it exists iff every
      value converts and every exported name is non-empty; its keys are the
      keys of the emitted attributes; the value under a key is the converted
      value of the last attribute emitted under it. */
  lemma {:induction false} ExportPrefixShape(a: Atom, n: nat)
    requires n <= |a.state|
    ensures ExportPrefix(a, n).Ok? <==>
      forall i :: 0 <= i < n ==> ConvertValue(a.state[i].1).Ok? && |KeyAt(a, i)| > 0
    ensures ExportPrefix(a, n).Ok? ==>
      forall key :: key in ExportPrefix(a, n).value <==> exists i :: 0 <= i < n && EmitsAt(a, i, key)
    ensures ExportPrefix(a, n).Ok? ==>
      forall key :: key in ExportPrefix(a, n).value ==>
        exists i :: 0 <= i < n && EmitsAt(a, i, key) &&
          ExportPrefix(a, n).value[key] == ConvertValue(a.state[i].1).value &&
          forall j :: i < j < n ==> !EmitsAt(a, j, key)
  {
    if n > 0 {
      ExportPrefixShape(a, n - 1);
      var prev := ExportPrefix(a, n - 1);
      var key := KeyAt(a, n - 1);
      var cv := ConvertValue(a.state[n - 1].1);
      if prev.Ok? && cv.Ok? && |key| > 0 {
        var out := prev.value;
        var res := ExportPrefix(a, n).value;
        assert res == if Emitted(key, cv.value, a.required) then out[key := cv.value] else out;
        forall k | k in res
          ensures exists i ::
            0 <= i < n && EmitsAt(a, i, k) &&
            res[k] == ConvertValue(a.state[i].1).value &&
            forall j :: i < j < n ==> !EmitsAt(a, j, k)
        {
          if EmitsAt(a, n - 1, k) {
            assert res[k] == cv.value;
          } else {
            assert k in out && res[k] == out[k];
            var i :| 0 <= i < n - 1 && EmitsAt(a, i, k) &&
              out[k] == ConvertValue(a.state[i].1).value &&
              forall j :: i < j < n - 1 ==> !EmitsAt(a, j, k);
            assert forall j :: i < j < n ==> !EmitsAt(a, j, k);
          }
        }
      }
    }
  }

  /** `as_dict` is all-or-nothing: it succeeds iff the receiver validates,
      every attribute value converts (under a hidden name too, since
      conversion comes first) and no exported name is empty. */
  lemma ExportAllOrNothing(a: Atom)
    ensures ExportAtom(a).Ok? <==>
      && CheckRequired(a, a.required) == Pass
      && forall i :: 0 <= i < |a.state| ==> ConvertValue(a.state[i].1).Ok? && |KeyAt(a, i)| > 0
  {
    ExportPrefixShape(a, |a.state|);
  }

  /** Every output key is the mapped name of a set attribute, never starts
      with `_`, and is present iff some attribute is emitted under it, that
      is, its converted value is defined or its key is in `_required`. */
  lemma ExportKeys(a: Atom)
    requires ExportAtom(a).Ok?
    ensures forall key :: key in ExportAtom(a).value ==>
      |key| > 0 && key[0] != '_' &&
      exists i :: 0 <= i < |a.state| && key == MappedName(a.ty.nameMappings, a.state[i].0)
    ensures forall key :: key in ExportAtom(a).value <==> exists i :: EmitsAt(a, i, key)
  {
    ExportPrefixShape(a, |a.state|);
  }

  /** An attribute whose exported name is shared with no other attribute
      appears in the output, with its converted value, iff that value is
      defined or the name is required; falsy values such as "", 0 and False
      are defined. */
  lemma ExportEntry(a: Atom, i: nat)
    requires ExportAtom(a).Ok?
    requires i < |a.state|
    requires forall j :: 0 <= j < |a.state| && j != i ==> KeyAt(a, j) != KeyAt(a, i)
    ensures ConvertValue(a.state[i].1).Ok? && |KeyAt(a, i)| > 0
    ensures KeyAt(a, i) in ExportAtom(a).value <==>
      KeyAt(a, i)[0] != '_' && (ConvertValue(a.state[i].1).value != VNone || KeyAt(a, i) in a.required)
    ensures KeyAt(a, i) in ExportAtom(a).value ==>
      ExportAtom(a).value[KeyAt(a, i)] == ConvertValue(a.state[i].1).value
  {
    ExportPrefixShape(a, |a.state|);
    var key := KeyAt(a, i);
    assert ExportAtom(a) == ExportPrefix(a, |a.state|);
    assert forall j :: EmitsAt(a, j, key) ==> j == i;
    if EmitsAt(a, i, key) {
      assert key in ExportAtom(a).value;
    }
  }

  /** List conversion keeps the length and the order: an atom element is
      replaced by its export, every other element is kept as it is; it
      succeeds iff every atom element exports. */
  lemma {:induction false} ConvertItemsPointwise(items: seq<Value>, n: nat)
    requires n <= |items|
    ensures ConvertItems(items, n).Ok? <==>
      forall j :: 0 <= j < n && items[j].VAtom? ==> ExportAtom(items[j].atom).Ok?
    ensures ConvertItems(items, n).Ok? ==> |ConvertItems(items, n).value| == n
    ensures ConvertItems(items, n).Ok? ==>
      forall j :: 0 <= j < n ==>
        ConvertItems(items, n).value[j] ==
          if items[j].VAtom? then VDict(ExportAtom(items[j].atom).value) else items[j]
  {
    if n > 0 {
      ConvertItemsPointwise(items, n - 1);
    }
  }

  /** The atoms `as_dict` descends into from `v`: `v` itself, the values of
      its attributes, hidden ones included, and the atom elements of its
      lists, but not the contents of a list nested in a list. */
  ghost predicate Reaches(v: Value, c: Atom)
    decreases v
  {
    match v
    case VAtom(a) =>
      a == c || exists i :: 0 <= i < |a.state| && Reaches(a.state[i].1, c)
    case VList(items) =>
      exists j :: 0 <= j < |items| && items[j].VAtom? && Reaches(items[j], c)
    case _ => false
  }

  /** A nested atom that fails validation anywhere `as_dict` descends makes
      the whole conversion fail. */
  lemma {:induction false} InvalidNestedAtomFails(v: Value, c: Atom)
    requires Reaches(v, c)
    requires CheckRequired(c, c.required).Fail?
    ensures ConvertValue(v).Err?
    decreases v
  {
    match v
    case VAtom(a) =>
      if a != c {
        var i :| 0 <= i < |a.state| && Reaches(a.state[i].1, c);
        InvalidNestedAtomFails(a.state[i].1, c);
        ExportAllOrNothing(a);
      }
    case VList(items) =>
      var j :| 0 <= j < |items| && items[j].VAtom? && Reaches(items[j], c);
      InvalidNestedAtomFails(items[j], c);
      ConvertItemsPointwise(items, |items|);
  }

  // ---------------------------------------------------------------------
  // The loops of `as_dict`
  // ---------------------------------------------------------------------

  lemma {:induction false} ExportPrefixErrorPersists(a: Atom, n: nat, m: nat)
    requires n <= m <= |a.state|
    requires ExportPrefix(a, n).Err?
    ensures ExportPrefix(a, m) == ExportPrefix(a, n)
    decreases m
  {
    if n < m {
      ExportPrefixErrorPersists(a, n, m - 1);
    }
  }

  lemma {:induction false} ConvertItemsErrorPersists(items: seq<Value>, n: nat, m: nat)
    requires n <= m <= |items|
    requires ConvertItems(items, n).Err?
    ensures ConvertItems(items, m) == ConvertItems(items, n)
    decreases m
  {
    if n < m {
      ConvertItemsErrorPersists(items, n, m - 1);
    }
  }

  /** `atom.as_dict`: validate first, then walk the attributes in order. It
      computes exactly `ExportAtom`. */
  method AsDict(a: Atom) returns (r: Result<map<string, Value>>)
    ensures r == ExportAtom(a)
    decreases VAtom(a), 1
  {
    var check := ValidateRequired(a);
    if check.Fail? {
      return Err(check.error);
    }
    var output: map<string, Value> := map[];
    var i := 0;
    while i < |a.state|
      invariant 0 <= i <= |a.state|
      invariant ExportPrefix(a, i) == Ok(output)
    {
      var key := a.state[i].0;
      if key in a.ty.nameMappings {
        key := a.ty.nameMappings[key];
      }
      var val := Convert(a.state[i].1);
      if val.Err? {
        ExportPrefixErrorPersists(a, i + 1, |a.state|);
        return Err(val.error);
      }
      if |key| == 0 {
        ExportPrefixErrorPersists(a, i + 1, |a.state|);
        return Err(EmptyKey(a.ty.name));
      }
      if key[0] != '_' && (val.value != VNone || key in a.required) {
        output := output[key := val.value];
      }
      i := i + 1;
    }
    return Ok(output);
  }

  /** The conversion step of `as_dict`'s loop body: a nested atom through
      `AsDict`, a list through a loop over its elements. It computes exactly
      `ConvertValue`. */
  method Convert(v: Value) returns (r: Result<Value>)
    ensures r == ConvertValue(v)
    decreases v, 2
  {
    match v {
      case VAtom(child) =>
        var sub := AsDict(child);
        if sub.Err? {
          return Err(sub.error);
        }
        return Ok(VDict(sub.value));
      case VList(items) =>
        var childVals: seq<Value> := [];
        var j := 0;
        while j < |items|
          invariant 0 <= j <= |items|
          invariant ConvertItems(items, j) == Ok(childVals)
        {
          match items[j] {
            case VAtom(child) =>
              var sub := AsDict(child);
              if sub.Err? {
                ConvertItemsErrorPersists(items, j + 1, |items|);
                return Err(sub.error);
              }
              childVals := childVals + [VDict(sub.value)];
            case _ =>
              childVals := childVals + [items[j]];
          }
          j := j + 1;
        }
        return Ok(VList(childVals));
      case _ =>
        return Ok(v);
    }
  }
}
