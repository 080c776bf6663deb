# peacock's atom engine in Dafny

peacock describes Swagger 2.0 documents as trees of entity objects.

- **Fixed-schema entities** are subclasses of `atom` (peacock/atom.py). They declare:
  - typed attributes;
  - a `_required` list;
  - a `_conditional_required` table, whose rules add required names depending on the construction arguments;
  - a `_name_mappings` table, which renames attributes on export.
- **Open entities** are subclasses of `simple_atom`. They keep a string-keyed `data` dictionary.

`as_dict` does two things:
1. It validates the required attributes.
2. It exports an entity to plain dictionaries. Nested entities and lists of entities are converted on the way. Hidden (`_`-prefixed) keys are dropped, and only defined or required entries are kept.

peacock/swagger_spec.py declares the Swagger entity classes as tables for this engine.

## The model

- `py_dicts.dfy` (`PyDicts`): Python dictionaries as association lists.
  - The order of the list is the iteration order.
  - `Put` overwrites a key in place or appends it.
  - `Update` is `dict.update`.
- `atom_model.dfy` (`AtomModel`) defines the data:
  - entity classes (`EntityType`);
  - instances (`Atom`), meaning the set attributes in order plus the instance's own `_required` list;
  - attribute values (`Value`), a finite tree;
  - errors, and the default value of each Traits kind.
- `atom_export.dfy` (`AtomExport`) holds validation and export.
  - The specification functions are `CheckRequired`, `ConvertValue`, `ConvertItems`, `ExportPrefix` and `ExportAtom`.
  - The methods `ValidateRequired`, `AsDict` and `Convert` follow the loops of `_valididate_required` and `as_dict`. Each is proved to compute its specification function.
  - Lemmas state what an export promises.
- `atom_objects.dfy` (`AtomObjects`) covers construction.
  - `AtomObject` is an `atom` instance. Its constructor merges the arguments and runs the rule pass. `Assign` sets an attribute. `SetRequired` and `SetNameMappings` replace the instance's own `_required` list and `_name_mappings` table, which shadow the class's.
  - `SimpleAtomObject` is a `simple_atom` instance, with `state`, `[]` read and `[]` write.
  - `Snapshot` is the value an instance contributes when it is nested in another one.
- `swagger_spec.dfy` (`SwaggerSpec`) holds the Swagger classes as `EntityType` constants, with lemmas about them:
  - the tables are well formed;
  - the `.update` merges produce what they should;
  - a constructed Parameter or SecurityScheme requires the right attributes;
  - small documents export, or fail, as expected.

Four behaviours of peacock/atom.py are easy to misread:
- For an `atom`, `input_dict` wins over keyword arguments on a shared key (atom.py:29). Only `simple_atom` lets keywords win.
- A value is converted before its key is tested for the hidden prefix (atom.py:101-119). A nested entity that fails validation therefore makes the export fail even under a hidden key.
- The inclusion test looks up the mapped key in `_required` (atom.py:122).
- Validation of a `simple_atom` reads names through `self.get`, which sees only its `data` attribute (atom.py:82).

## Model

| member | source | states |
|---|---|---|
| PyDicts.Get | peacock/atom.py:37-38 | `d.get(k)` is absent iff no pair has key `k`; a present value is stored under `k` in some pair |
| PyDicts.Put | peacock/atom.py:146-147 | after `d[k] = v`, `k` reads as `v`, every other key reads as before, the length grows only for a new key, and keys stay distinct |
| PyDicts.Update | peacock/atom.py:28-29 | after `d.update(e)` a key of `e` reads as in `e` and any other key as in `d`; keys stay distinct |
| PyDicts.ToMap | peacock/atom.py:140-141 | the copied dictionary has exactly the keys of the association list, with the same values |
| AtomModel.Default | peacock/swagger_spec.py:8-12 | an unset attribute reads as None unless it is a List (reads `[]`), a Dict (reads `{}`) or an Enum whose first choice is a string (reads that choice); Str(None), Bool(None), Int(None), Float(None), Any and Instance (`Instance(This)` included) read as None |
| AtomExport.Resolve | peacock/atom.py:82 | `self.get(key)[key]` fails iff the name is neither set, declared nor private; a set value wins; otherwise a declared attribute reads as its default; a simple atom shows only `data`, as the dictionary of its entries |
| AtomExport.CheckRequiredFirstFailure | peacock/atom.py:79-87 | validation passes iff every required name reads as defined; a failure is the failure of the first failing name in list order |
| AtomExport.UnsetScalarIsMissing | peacock/swagger_spec.py:8-12 | an unset Str/Bool/Int/Float attribute reads as None, so requiring it fails with an error naming the attribute, its trait kind and the class |
| AtomExport.ValidateRequired | peacock/atom.py:79-87 | the loop returns exactly `CheckRequired` of the instance's `_required`: Pass iff every name is defined, otherwise the first failing name's error |
| AtomExport.ExportPrefixShape | peacock/atom.py:92-125 | the export succeeds iff every attribute value converts and every mapped key is non-empty; a key is present iff some attribute emits it, and its value is the converted value of the last attribute emitting it |
| AtomExport.ExportAllOrNothing | peacock/atom.py:90-119 | the export succeeds iff validation passes, every attribute value converts (hidden attributes included) and no mapped key is empty |
| AtomExport.ExportKeys | peacock/atom.py:95-119 | every output key is non-empty, does not start with `_`, and is the mapped name of some set attribute |
| AtomExport.ExportEntry | peacock/atom.py:117-123 | with unique mapped keys, an attribute appears iff its mapped key is not hidden and its converted value is defined or the key is required, and then with that converted value |
| AtomExport.ConvertItemsPointwise | peacock/atom.py:106-115 | list conversion succeeds iff every entity element exports; it keeps length and order, replaces entity elements by their exports and copies other elements, nested lists included, unchanged |
| AtomExport.InvalidNestedAtomFails | peacock/atom.py:101-115 | a value that holds an entity whose validation fails cannot be converted, when that entity is nested at any depth through attributes (hidden ones included) and the elements of a list attribute, but not inside a list held in a list |
| AtomExport.ExportPrefixErrorPersists | peacock/atom.py:95-104 | once an attribute fails to convert, no later attribute changes the failure |
| AtomExport.ConvertItemsErrorPersists | peacock/atom.py:108-115 | once a list element fails to export, no later element changes the failure |
| AtomExport.AsDict | peacock/atom.py:89-125 | the method's result is exactly `ExportAtom`, the export described by the lemmas above |
| AtomExport.Convert | peacock/atom.py:101-115 | the method's result is exactly `ConvertValue`: a nested entity becomes its export, and a list is converted one level deep |
| AtomObjects.TriggeredNames | peacock/atom.py:37-39 | a name is added by the rule pass iff some rule whose trigger key was supplied with a listed value names it; a rule whose key was not supplied never fires |
| AtomObjects.AddConditionalRequired | peacock/atom.py:37-39 | the loop leaves the class's list followed by the list of every firing rule, in table order (duplicates kept) |
| AtomObjects.AtomArgs | peacock/atom.py:28-29 | the effective arguments read as `input_dict` on its keys and as the keyword arguments elsewhere; keys stay distinct |
| AtomObjects.SimpleData | peacock/atom.py:133-137 | `data` reads as the keyword arguments on their keys, otherwise as `input_dict`, otherwise absent |
| AtomObjects.AtomObject.constructor | peacock/atom.py:26-39 | for arguments that set none of `_required`, `_name_mappings` and `_conditional_required`, the instance holds the merged arguments, `_required` is the class list followed by the lists of the rules that fired, and the renames are the class's |
| AtomObjects.AtomObject.Assign | peacock/atom.py:37-39 | assigning an attribute other than `_required` and `_name_mappings` changes only that attribute; `_required` is not re-examined, even when a rule's trigger changes |
| AtomObjects.AtomObject.SetRequired | peacock/atom.py:81 | `obj._required = names` leaves the instance exactly as before except that validation and the inclusion rule now read `names` |
| AtomObjects.AtomObject.SetNameMappings | peacock/atom.py:98-99 | `obj._name_mappings = m` leaves the instance exactly as before except that the export now renames by `m` |
| AtomObjects.SimpleAtomObject.constructor | peacock/atom.py:133-138 | `data` is the keyword-wins merge and `_required` is left as the class list |
| AtomObjects.SimpleAtomObject.State | peacock/atom.py:140-141 | `state()` has exactly the keys and values of `data` |
| AtomObjects.SimpleAtomObject.GetItem | peacock/atom.py:143-144 | `x[k]` succeeds iff `k` is a key of `data` and returns its value; otherwise it fails with `KeyNotFound(k)` |
| AtomObjects.SimpleAtomObject.SetItem | peacock/atom.py:146-147 | after `x[k] = v`, `x[k]` returns `v` and every other key reads as before |
| SwaggerSpec.SimpleTypeSound | peacock/swagger_spec.py:55-59 | every `simple_atom` class's table is well formed and renames nothing |
| SwaggerSpec.LicenseSound | peacock/swagger_spec.py:18-21 | License's required names are declared attributes |
| SwaggerSpec.ContactSound | peacock/swagger_spec.py:23-26 | Contact's table is well formed |
| SwaggerSpec.InfoSound | peacock/swagger_spec.py:28-35 | Info's required `title` and `version` are declared attributes |
| SwaggerSpec.XMLObjectSound | peacock/swagger_spec.py:37-42 | XMLObject's table is well formed |
| SwaggerSpec.ExternalDocsSound | peacock/swagger_spec.py:44-47 | ExternalDocs' required `url` is declared |
| SwaggerSpec.TagSound | peacock/swagger_spec.py:49-53 | Tag's required `name` is declared |
| SwaggerSpec.SecuritySchemeSound | peacock/swagger_spec.py:61-76 | SecurityScheme's required names, rule keys and rule names are declared, and it renames only declared attributes, and only by reserved-word renames |
| SwaggerSpec.ItemSound | peacock/swagger_spec.py:81-108 | Item's rule key `type_` and added name `items` are declared, and it renames only declared attributes, and only by reserved-word renames |
| SwaggerSpec.ReferenceSound | peacock/swagger_spec.py:112-115 | Reference's required `ref_` is declared, and it renames only declared attributes, and only by reserved-word renames |
| SwaggerSpec.PropertySound | peacock/swagger_spec.py:118-119 | Property, inheriting Item's table, is well formed |
| SwaggerSpec.SchemaSound | peacock/swagger_spec.py:124-146 | Schema's renames are declared attributes and reserved-word renames only |
| SwaggerSpec.HeaderSound | peacock/swagger_spec.py:179-180 | Header, inheriting Item's table, is well formed |
| SwaggerSpec.ResponseSound | peacock/swagger_spec.py:188-193 | Response's required `description` is declared |
| SwaggerSpec.OperationSound | peacock/swagger_spec.py:200-213 | Operation's required `responses` is declared |
| SwaggerSpec.PathSound | peacock/swagger_spec.py:215-225 | Path's table is well formed: it renames only declared attributes, and only by reserved-word renames |
| SwaggerSpec.SwaggerSound | peacock/swagger_spec.py:232-248 | Swagger's required `paths` and `info` are declared |
| SwaggerSpec.ParameterSound | peacock/swagger_spec.py:154-172 | Parameter's required names and the names of its rules, `type_` and `items` from Item included, are declared, and its renames are reserved-word ones |
| SwaggerSpec.SchemaMappingsMerge | peacock/swagger_spec.py:145-146 | Schema's merged renames are exactly `ref_`→`$ref` and `type_`→`type` |
| SwaggerSpec.ParameterRulesMerge | peacock/swagger_spec.py:165-169 | Item's rule key differs from both Parameter rule keys, so the update appends it and overwrites nothing |
| SwaggerSpec.ParameterRequirements | peacock/swagger_spec.py:163-169 | a constructed Parameter requires `name` and `in_`, `schema` iff built with `in_="body"`, `type_` iff built with `in_` in query/header/path/formData, and `items` iff built with `type_="array"` |
| SwaggerSpec.SecuritySchemeRequirements | peacock/swagger_spec.py:71-75 | a constructed SecurityScheme requires `type_`, plus `name` and `in_` iff `type_="apiKey"`, plus `flow`, `authorizationUrl`, `tokenUrl` and `scopes` iff `type_="oauth2"` |
| SwaggerSpec.DocumentValidates | peacock/swagger_spec.py:232-248 | a Swagger built from `info` and `paths` holds exactly those two, requires `paths` then `info` (it has no rules), and passes its own validation whatever `info` holds |
| SwaggerSpec.DocumentExports | peacock/atom.py:101-104 | a Swagger whose info exports exports to `{info: <that export>, paths: {}}` |
| SwaggerSpec.DocumentFails | peacock/atom.py:101-104 | a Swagger whose info fails to export fails with that same error |
| SwaggerSpec.MinimalInfoExports | peacock/swagger_spec.py:28-35 | `Info(title="", version="")` exports both empty strings, since they are defined |
| SwaggerSpec.EmptyPathsExports | peacock/swagger_spec.py:227-228 | an empty `Paths()` exports to `{}` |
| SwaggerSpec.InfoWithoutVersionFails | peacock/swagger_spec.py:28-35 | `Info(title="")` fails naming `version`, its Str kind and Info |
| SwaggerSpec.MinimalDocumentExports | peacock/swagger_spec.py:232-248 | `Swagger(info=Info(title="", version=""), paths=Paths())` exports to `{info: {title: "", version: ""}, paths: {}}`, keeping the empty strings |
| SwaggerSpec.MissingVersionFails | peacock/swagger_spec.py:28-35 | the same document whose Info lacks `version` fails with the error naming `version`, Str and Info |
| SwaggerSpec.ReplacedRequiredIsChecked | peacock/atom.py:79-87 | the minimal Info with its `_required` replaced by `["description"]` fails naming `description` |
| SwaggerSpec.ReplacedMappingsRename | peacock/atom.py:97-99 | the minimal Info with its renames replaced by `{title: name}` exports `{name: "", version: ""}` |
| SwaggerSpec.ItemTypeRule | peacock/swagger_spec.py:102-106 | an Item built with `type_="array"` and no `items` fails naming `items` and its Instance kind; built with `type_="string"` it exports `{type: "string"}` |
| SwaggerSpec.ReferenceRenamed | peacock/swagger_spec.py:112-115 | `Reference(ref_="#/x")` exports `{$ref: "#/x"}` and no `ref_` key |

## Left out

- The Traits library is not part of this model. The model does no type or enum checking on assignment, and an undeclared attribute is not rejected at construction. An instance's state is the explicit list of attributes that were set.
- Which trait defaults show up in `vars(self)` is not modelled. Unset attributes are absent from the state, and `_required` is held apart from it. Validation reads every required name, and Traits then stores the default of an unset attribute on the instance. In the source, a required attribute with a default other than None therefore appears in the export. For example, `Parameter(name="p")` exports `{name: p, in: query}` in the source, since `in_` defaults to `"query"`; the model exports `{name: p}`.
- `Instance(License, ())` and `Instance(Contact, ())` create a default instance lazily. Here they read as None like every other `Instance` trait.
- `json()` and `__repr__` (atom.py:59-63) are left out. They delegate to `json.dumps`.
- `__nonzero__` (atom.py:65-73) is left out. It is debug code that prints.
- The commented-out default-filling block and `_default_traits` (atom.py:9-14, 42-57) are dead code and are left out.
- The `__main__` demo and petstore_minimal.py are scripts with I/O and are left out. Their minimal document is the scenario of `MinimalDocumentExports`.
- Float and `Any` values are opaque scalars (`VOpaque`); the engine does no arithmetic on them.
- AtomObjects.AtomObject.constructor (and `Constructed`) require that the merged arguments set none of `_required`, `_name_mappings` and `_conditional_required`. In the source such an argument replaces the instance's list or table, which the rule pass, validation, renaming and the inclusion test then read. A `_conditional_required` value is keyed by tuples, which no `Value` dictionary can hold. SwaggerSpec.ParameterRequirements and SwaggerSpec.SecuritySchemeRequirements describe the rule pass of the class's own table, so they hold only for instances built without these arguments.
- AtomObjects.AtomObject.SetRequired and AtomObjects.AtomObject.SetNameMappings keep the assigned list or table apart from the state. In the source it is also an entry of `vars(self)`, but the export converts it and then skips it as hidden, so the output is the same.
- Nested instances are values (`Snapshot`). Aliasing, that is one object reachable from two places and mutated through one of them, is not modelled.
- Cycles in the object graph cannot be expressed, so recursion depth is not modelled.
- Python 2 iterates dictionaries in hash order. The model fixes insertion order. This order decides which error is reported first when several names fail, and which attribute wins when two map to one key.
- Class-hierarchy tests (`atom in MRO`, `TraitListObject in MRO`) become tests on `Value` constructors, and a `simple` flag marks `simple_atom` classes.
- AtomExport.Convert: every `VList` counts as a Traits list. A plain Python list held in an `Any` attribute or inside a simple atom's `data` would not be converted by the source.

