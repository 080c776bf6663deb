/** The Swagger 2.0 entity classes of peacock/swagger_spec.py as data for
    the engine: each class's declared attributes (those of `Item` included
    in its subclasses), its `_required` list, its `_conditional_required`
    table and its `_name_mappings`, with the `.update` merges from `Item`
    written as dictionary updates.

    The lemmas check that the tables are well formed, that the only renames
    are the three reserved-word ones, what the merges produce, which
    attributes a constructed Parameter or SecurityScheme requires, and the
    exports of a few small documents, a minimal Swagger document among
    them. */
module SwaggerSpec {
  import opened PyDicts
  import opened AtomModel
  import opened AtomExport
  import opened AtomObjects

  // ---------------------------------------------------------------------
  // The tables
  // ---------------------------------------------------------------------

  const NoRules: RuleTable := []
  const NoMappings: map<string, string> := map[]

  /** The one trait of every `simple_atom` subclass. */
  const DataTraits: map<string, TraitKind> := map["data" := DictTrait]

  function SimpleType(name: string): EntityType {
    EntityType(name, DataTraits, [], NoRules, NoMappings, true)
  }

  const License := EntityType("License",
    map["name" := StrTrait, "url" := StrTrait],
    ["name"], NoRules, NoMappings, false)

  const Contact := EntityType("Contact",
    map["name" := StrTrait, "url" := StrTrait, "email" := StrTrait],
    [], NoRules, NoMappings, false)

  const Info := EntityType("Info",
    map["title" := StrTrait, "version" := StrTrait, "description" := StrTrait,
        "termsOfService" := StrTrait,
        "license" := InstanceTrait("License"), "contact" := InstanceTrait("Contact")],
    ["title", "version"], NoRules, NoMappings, false)

  const XMLObject := EntityType("XMLObject",
    map["name" := StrTrait, "namespace" := StrTrait, "prefix" := StrTrait,
        "attribute" := BoolTrait, "wrapped" := BoolTrait],
    [], NoRules, NoMappings, false)

  const ExternalDocs := EntityType("ExternalDocs",
    map["description" := StrTrait, "url" := StrTrait],
    ["url"], NoRules, NoMappings, false)

  const Tag := EntityType("Tag",
    map["name" := StrTrait, "description" := StrTrait,
        "externalDocs" := InstanceTrait("ExternalDocs")],
    ["name"], NoRules, NoMappings, false)

  const Scopes := SimpleType("Scopes")
  const SecurityRequirement := SimpleType("SecurityRequirement")

  const SecuritySchemeRules: RuleTable := [
    (("type_", ["apiKey"]), ["name", "in_"]),
    (("type_", ["oauth2"]), ["flow", "authorizationUrl", "tokenUrl", "scopes"])
  ]

  const SecurityScheme := EntityType("SecurityScheme",
    map["type_" := EnumTrait([None, Some("basic"), Some("apiKey"), Some("oauth2")]),
        "description" := StrTrait,
        "name" := StrTrait,
        "in_" := EnumTrait([None, Some("query"), Some("header")]),
        "flow" := EnumTrait([None, Some("implicit"), Some("password"), Some("application"), Some("accessCode")]),
        "authorizationUrl" := StrTrait,
        "tokenUrl" := StrTrait,
        "scopes" := InstanceTrait("Scopes")],
    ["type_"], SecuritySchemeRules, map["in_" := "in", "type_" := "type"], false)

  const SecurityDefinitions := SimpleType("SecurityDefinitions")

  const ItemTraits: map<string, TraitKind> :=
    map["ref_" := StrTrait,
        "type_" := EnumTrait([None, Some("string"), Some("number"), Some("integer"),
                              Some("boolean"), Some("array"), Some("file")]),
        "format" := StrTrait,
        "allowEmptyValue" := BoolTrait,
        "default" := StrTrait,
        "maximum" := FloatTrait,
        "exclusiveMaximum" := BoolTrait,
        "minimum" := FloatTrait,
        "exclusiveMinimum" := FloatTrait,
        "maxLength" := IntTrait,
        "minLength" := IntTrait,
        "pattern" := StrTrait,
        "maxItems" := IntTrait,
        "minItems" := IntTrait,
        "uniqueItems" := BoolTrait,
        "enum" := ListTrait,
        "multipleOf" := FloatTrait,
        "items" := InstanceTrait("This")]

  const ItemRules: RuleTable := [(("type_", ["array"]), ["items"])]

  const ItemMappings: map<string, string> := map["type_" := "type", "ref_" := "$ref"]

  const Item := EntityType("Item", ItemTraits, [], ItemRules, ItemMappings, false)

  const Reference := EntityType("Reference",
    map["ref_" := StrTrait],
    ["ref_"], NoRules, map["ref_" := "$ref"], false)

  /** `Property(Item)` declares nothing of its own. */
  const Property := EntityType("Property", ItemTraits, [], ItemRules, ItemMappings, false)

  const Properties := SimpleType("Properties")

  /** Schema's table is `{"ref_": "$ref"}` updated with Item's. */
  const SchemaMappings: map<string, string> := map["ref_" := "$ref"] + ItemMappings

  const Schema := EntityType("Schema",
    map["ref_" := InstanceTrait("Reference"), "title" := StrTrait,
        "description" := StrTrait, "required" := ListTrait, "type_" := StrTrait,
        "properties" := InstanceTrait("Properties"), "items" := InstanceTrait("Item"),
        "discriminator" := StrTrait, "readOnly" := BoolTrait,
        "xml" := InstanceTrait("XMLObject"), "externalDocs" := InstanceTrait("ExternalDocs"),
        "example" := AnyTrait],
    [], NoRules, SchemaMappings, false)

  const Definitions := SimpleType("Definitions")

  /** The two rules Parameter declares itself. */
  const ParameterOwnRules: RuleTable := [
    (("in_", ["body"]), ["schema"]),
    (("in_", ["query", "header", "path", "formData"]), ["type_"])
  ]

  /** Parameter's table after `.update(Item._conditional_required)`; the
      lemma `ParameterRulesMerge` proves it is that update. */
  const ParameterRules: RuleTable := ParameterOwnRules + ItemRules

  /** Parameter's table is `{"in_": "in"}` updated with Item's. */
  const ParameterMappings: map<string, string> := map["in_" := "in"] + ItemMappings

  const Parameter := EntityType("Parameter",
    ItemTraits + map[
      "name" := StrTrait, "description" := StrTrait, "required" := BoolTrait,
      "collectionFormat" := EnumTrait([None, Some("csv"), Some("ssb"), Some("tsv"), Some("pipes"), Some("multi")]),
      "in_" := EnumTrait([Some("query"), Some("header"), Some("path"), Some("formData"), Some("body")]),
      "schema" := InstanceTrait("Schema")],
    ["name", "in_"], ParameterRules, ParameterMappings, false)

  const Parameters := SimpleType("Parameters")

  /** `Header(Item)` declares nothing of its own. */
  const Header := EntityType("Header", ItemTraits, [], ItemRules, ItemMappings, false)

  const Headers := SimpleType("Headers")
  const Example := SimpleType("Example")

  const Response := EntityType("Response",
    map["description" := StrTrait, "schema" := InstanceTrait("Schema"),
        "headers" := InstanceTrait("Headers"), "examples" := InstanceTrait("Example")],
    ["description"], NoRules, NoMappings, false)

  const Responses := SimpleType("Responses")

  const Operation := EntityType("Operation",
    map["tags" := ListTrait, "summary" := StrTrait, "description" := StrTrait,
        "externalDocs" := InstanceTrait("ExternalDocs"), "operationId" := StrTrait,
        "consumes" := ListTrait, "produces" := ListTrait, "parameters" := ListTrait,
        "responses" := InstanceTrait("Responses"), "schemes" := ListTrait,
        "deprecated" := BoolTrait, "security" := InstanceTrait("SecurityRequirement")],
    ["responses"], NoRules, NoMappings, false)

  const Path := EntityType("Path",
    map["ref_" := InstanceTrait("Reference"),
        "get" := InstanceTrait("Operation"), "put" := InstanceTrait("Operation"),
        "post" := InstanceTrait("Operation"), "delete" := InstanceTrait("Operation"),
        "options" := InstanceTrait("Operation"), "head" := InstanceTrait("Operation"),
        "patch" := InstanceTrait("Operation"), "parameters" := ListTrait],
    [], NoRules, map["ref_" := "$ref"], false)

  const Paths := SimpleType("Paths")

  const Swagger := EntityType("Swagger",
    map["swagger" := EnumTrait([Some("2.0")]), "info" := InstanceTrait("Info"),
        "host" := StrTrait, "basePath" := StrTrait, "schemes" := ListTrait,
        "consumes" := ListTrait, "produces" := ListTrait,
        "paths" := InstanceTrait("Paths"), "definitions" := InstanceTrait("Definitions"),
        "parameters" := InstanceTrait("Parameters"), "responses" := InstanceTrait("Responses"),
        "securityDefinitions" := InstanceTrait("SecurityDefinitions"),
        "security" := ListTrait, "tags" := InstanceTrait("Tag"),
        "externalDocs" := InstanceTrait("ExternalDocs")],
    ["paths", "info"], NoRules, NoMappings, false)

  // ---------------------------------------------------------------------
  // Well-formedness of the tables
  // ---------------------------------------------------------------------

  /** Every required name is a declared attribute. */
  predicate RequiredDeclared(ty: EntityType) {
    forall n :: n in ty.required ==> n in ty.traits
  }

  /** Every rule's trigger and every name a rule adds is a declared attribute. */
  predicate RulesDeclared(ty: EntityType) {
    forall i :: 0 <= i < |ty.conditionalRequired| ==>
      && ty.conditionalRequired[i].0.0 in ty.traits
      && forall n :: n in ty.conditionalRequired[i].1 ==> n in ty.traits
  }

  /** Every renamed attribute is a declared attribute. */
  predicate RenamesDeclared(ty: EntityType) {
    forall k :: k in ty.nameMappings ==> k in ty.traits
  }

  predicate WellFormed(ty: EntityType) {
    RequiredDeclared(ty) && RulesDeclared(ty) && RenamesDeclared(ty)
  }

  /** The only renames: `in_` to `in`, `type_` to `type`, `ref_` to `$ref`. */
  predicate OnlyReservedWordRenames(ty: EntityType) {
    forall k :: k in ty.nameMappings ==>
      (k == "in_" && ty.nameMappings[k] == "in") ||
      (k == "type_" && ty.nameMappings[k] == "type") ||
      (k == "ref_" && ty.nameMappings[k] == "$ref")
  }

  predicate Sound(ty: EntityType) {
    WellFormed(ty) && OnlyReservedWordRenames(ty)
  }

  lemma SimpleTypeSound(name: string)
    ensures Sound(SimpleType(name))
  {
  }

  lemma LicenseSound()
    ensures Sound(License)
  {
  }

  lemma ContactSound()
    ensures Sound(Contact)
  {
  }

  lemma InfoSound()
    ensures Sound(Info)
  {
  }

  lemma XMLObjectSound()
    ensures Sound(XMLObject)
  {
  }

  lemma ExternalDocsSound()
    ensures Sound(ExternalDocs)
  {
  }

  lemma TagSound()
    ensures Sound(Tag)
  {
  }

  lemma SecuritySchemeSound()
    ensures Sound(SecurityScheme)
  {
  }

  lemma ItemSound()
    ensures Sound(Item)
  {
  }

  lemma ReferenceSound()
    ensures Sound(Reference)
  {
  }

  lemma PropertySound()
    ensures Sound(Property)
  {
  }

  lemma SchemaSound()
    ensures Sound(Schema)
  {
  }

  lemma HeaderSound()
    ensures Sound(Header)
  {
  }

  lemma ResponseSound()
    ensures Sound(Response)
  {
  }

  lemma OperationSound()
    ensures Sound(Operation)
  {
  }

  lemma PathSound()
    ensures Sound(Path)
  {
  }

  lemma SwaggerSound()
    ensures Sound(Swagger)
  {
  }

  lemma ParameterSound()
    ensures Sound(Parameter)
  {
  }

  /** Schema's renames hold both its own `ref_` entry and Item's `type_`. */
  lemma SchemaMappingsMerge()
    ensures SchemaMappings == map["ref_" := "$ref", "type_" := "type"]
  {
  }

  /** The rule keys of Parameter and Item are disjoint, so the update
      overwrites nothing: the merged table is Parameter's two rules followed
      by Item's `type_ = "array"` rule. */
  lemma ParameterRulesMerge()
    ensures Update(ParameterOwnRules, ItemRules) == ParameterRules
    ensures forall i :: 0 <= i < |ParameterOwnRules| ==> ParameterOwnRules[i].0 != ItemRules[0].0
  {
    assert Put(ParameterOwnRules, ItemRules[0].0, ItemRules[0].1) == ParameterRules;
  }

  // ---------------------------------------------------------------------
  // Requirements of constructed instances
  // ---------------------------------------------------------------------

  /** The construction arguments supply `key` as the string `s`. */
  predicate SuppliedAs(args: Dict<string, Value>, key: string, s: string) {
    Get(args, key) == Some(VStr(s))
  }

  /** A Parameter requires `name` and `in_`; `schema` if it was built with
      `in_ = "body"`; `type_` if built with `in_` in query, header, path or
      formData; `items` if built with `type_ = "array"`. */
  lemma ParameterRequirements(args: Dict<string, Value>, name: string)
    ensures name in EffectiveRequired(Parameter, args) <==>
      || name == "name" || name == "in_"
      || (name == "schema" && SuppliedAs(args, "in_", "body"))
      || (name == "type_" && (SuppliedAs(args, "in_", "query") || SuppliedAs(args, "in_", "header") ||
                              SuppliedAs(args, "in_", "path") || SuppliedAs(args, "in_", "formData")))
      || (name == "items" && SuppliedAs(args, "type_", "array"))
  {
    TriggeredNames(ParameterRules, args, name);
    assert Fires(ParameterRules[0].0, args) <==> SuppliedAs(args, "in_", "body");
    assert Fires(ParameterRules[1].0, args) <==>
      (SuppliedAs(args, "in_", "query") || SuppliedAs(args, "in_", "header") ||
       SuppliedAs(args, "in_", "path") || SuppliedAs(args, "in_", "formData"));
    assert Fires(ParameterRules[2].0, args) <==> SuppliedAs(args, "type_", "array");
  }

  /** A SecurityScheme requires `type_`; with `type_ = "apiKey"` also `name`
      and `in_`; with `type_ = "oauth2"` also `flow`, `authorizationUrl`,
      `tokenUrl` and `scopes`. */
  lemma SecuritySchemeRequirements(args: Dict<string, Value>, name: string)
    ensures name in EffectiveRequired(SecurityScheme, args) <==>
      || name == "type_"
      || ((name == "name" || name == "in_") && SuppliedAs(args, "type_", "apiKey"))
      || ((name == "flow" || name == "authorizationUrl" || name == "tokenUrl" || name == "scopes") &&
          SuppliedAs(args, "type_", "oauth2"))
  {
    TriggeredNames(SecuritySchemeRules, args, name);
    assert Fires(SecuritySchemeRules[0].0, args) <==> SuppliedAs(args, "type_", "apiKey");
    assert Fires(SecuritySchemeRules[1].0, args) <==> SuppliedAs(args, "type_", "oauth2");
  }

  // ---------------------------------------------------------------------
  // Exports of small documents
  // ---------------------------------------------------------------------

  /** `Info(title="", version="")`. */
  const MinimalInfo := Constructed(Info, None, [("title", VStr("")), ("version", VStr(""))])

  /** `Paths()`. */
  const EmptyPaths := SimpleConstructed(Paths, None, [])

  /** `Swagger(info=info, paths=Paths())`. */
  function DocumentWith(info: Atom): Atom {
    Constructed(Swagger, None, [("info", VAtom(info)), ("paths", VAtom(EmptyPaths))])
  }

  const MinimalDocument := DocumentWith(MinimalInfo)

  /** A Swagger built from `info` and `paths` holds exactly those two, in
      that order, requires `paths` then `info` (it has no rules), and passes
      its own validation whatever `info` holds. */
  lemma DocumentValidates(info: Atom)
    ensures DocumentWith(info).state == [("info", VAtom(info)), ("paths", VAtom(EmptyPaths))]
    ensures DocumentWith(info).required == ["paths", "info"]
    ensures CheckRequired(DocumentWith(info), DocumentWith(info).required) == Pass
  {
    var doc := DocumentWith(info);
    assert doc.state == [("info", VAtom(info)), ("paths", VAtom(EmptyPaths))];
    assert Get(doc.state, "paths") == Some(VAtom(EmptyPaths));
    assert Get(doc.state, "info") == Some(VAtom(info));
    assert doc.required == ["paths", "info"];
    assert CheckName(doc, "paths") == Pass;
    assert CheckName(doc, "info") == Pass;
    CheckRequiredFirstFailure(doc, doc.required);
  }

  /** A document whose info exports exports to that export beside the
      empty paths. */
  lemma DocumentExports(info: Atom)
    requires ExportAtom(info).Ok?
    ensures ExportAtom(DocumentWith(info)) ==
      Ok(map["info" := VDict(ExportAtom(info).value), "paths" := VDict(map[])])
  {
    var doc := DocumentWith(info);
    var out := ExportAtom(info).value;
    DocumentValidates(info);
    EmptyPathsExports();
    assert KeyAt(doc, 0) == "info" && KeyAt(doc, 1) == "paths";
    assert ConvertValue(doc.state[0].1) == Ok(VDict(out));
    assert ExportPrefix(doc, 1) == Ok(map["info" := VDict(out)]);
    assert ExportPrefix(doc, 2) == Ok(map["info" := VDict(out), "paths" := VDict(map[])]);
  }

  /** A document whose info fails to export fails with the info's error. */
  lemma DocumentFails(info: Atom)
    requires ExportAtom(info).Err?
    ensures ExportAtom(DocumentWith(info)) == Err(ExportAtom(info).error)
  {
    var doc := DocumentWith(info);
    DocumentValidates(info);
    assert ConvertValue(doc.state[0].1) == Err(ExportAtom(info).error);
    assert ExportPrefix(doc, 1) == Err(ExportAtom(info).error);
    ExportPrefixErrorPersists(doc, 1, 2);
  }

  /** A document with only its two required fields exports; the empty
      strings of the required `title` and `version` are kept. */
  lemma MinimalDocumentExports()
    ensures ExportAtom(MinimalDocument) ==
      Ok(map["info" := VDict(map["title" := VStr(""), "version" := VStr("")]), "paths" := VDict(map[])])
  {
    MinimalInfoExports();
    DocumentExports(MinimalInfo);
  }

  /** `Info(title="", version="")` exports both empty strings: they are
      defined, so they pass validation and are emitted. */
  lemma MinimalInfoExports()
    ensures ExportAtom(MinimalInfo) == Ok(map["title" := VStr(""), "version" := VStr("")])
  {
  }

  /** An empty `Paths()` exports to an empty dictionary. */
  lemma EmptyPathsExports()
    ensures ExportAtom(EmptyPaths) == Ok(map[])
  {
  }

  /** `Info(title="")`, without its required `version`. */
  const InfoWithoutVersion := Constructed(Info, None, [("title", VStr(""))])

  lemma InfoWithoutVersionFails()
    ensures ExportAtom(InfoWithoutVersion) == Err(MissingRequired("Info", "version", StrTrait))
  {
  }

  /** The minimal document whose info lacks `version` fails, naming it. */
  lemma MissingVersionFails()
    ensures ExportAtom(DocumentWith(InfoWithoutVersion)) == Err(MissingRequired("Info", "version", StrTrait))
  {
    InfoWithoutVersionFails();
    DocumentFails(InfoWithoutVersion);
  }

  /** After `info._required = ["description"]` the minimal Info fails
      naming `description`: validation walks the instance's list. */
  lemma ReplacedRequiredIsChecked()
    ensures ExportAtom(MinimalInfo.(required := ["description"])) ==
      Err(MissingRequired("Info", "description", StrTrait))
  {
  }

  /** After `info._name_mappings = {"title": "name"}` the minimal Info
      exports `title` under `name`: the instance's table shadows the class's. */
  lemma ReplacedMappingsRename()
    ensures ExportAtom(MinimalInfo.(ty := Info.(nameMappings := map["title" := "name"]))) ==
      Ok(map["name" := VStr(""), "version" := VStr("")])
  {
  }

  /** An Item built with `type_ = "array"` and no `items` fails naming
      `items`; built with `type_ = "string"` it exports under `type`. */
  lemma ItemTypeRule()
    ensures ExportAtom(Constructed(Item, None, [("type_", VStr("array"))])) ==
      Err(MissingRequired("Item", "items", InstanceTrait("This")))
    ensures ExportAtom(Constructed(Item, None, [("type_", VStr("string"))])) ==
      Ok(map["type" := VStr("string")])
  {
  }

  /** `ref_` is exported as `$ref`, never as `ref_`. */
  lemma ReferenceRenamed()
    ensures ExportAtom(Constructed(Reference, None, [("ref_", VStr("#/x"))])) ==
      Ok(map["$ref" := VStr("#/x")])
  {
  }
}
