/** The dynamic sync-table schema: a record kind's static property table
    extended, in place, with one property per custom field definition that
    is available on that kind. */
module Schemas {
  import opened Wrappers
  import opened Copper

  datatype ValueType = StringType | NumberType | BooleanType

  datatype ValueHint = UrlHint | DateHint | CurrencyHint

  /** A property's schema. Properties declared by the static schemas are
      kept by name only; their shapes are not modelled. */
  datatype PropertySchema =
    | StaticProperty
    | Scalar(valueType: ValueType, hint: Option<ValueHint>)
    | ArrayOf(items: ValueType)

  /** The property kind for a custom field's `type`. */
  function PropertyFor(typeTag: Option<string>): (r: PropertySchema)
    ensures r != StaticProperty
    ensures r == Scalar(StringType, Some(UrlHint)) <==> typeTag == Some("Url")
    ensures r == Scalar(NumberType, Some(DateHint)) <==> typeTag == Some("Date")
    ensures r == Scalar(BooleanType, None) <==> typeTag == Some("Checkbox")
    ensures r == Scalar(NumberType, None) <==> typeTag == Some("Float") || typeTag == Some("Percentage")
    ensures r == Scalar(NumberType, Some(CurrencyHint)) <==> typeTag == Some("Currency")
    ensures r == ArrayOf(StringType) <==> typeTag == Some("MultiSelect")
    ensures r == Scalar(StringType, None) <==> typeTag !in KNOWN_TYPES
  {
    if typeTag == Some("Url") then Scalar(StringType, Some(UrlHint))
    else if typeTag == Some("Date") then Scalar(NumberType, Some(DateHint))
    else if typeTag == Some("Checkbox") then Scalar(BooleanType, None)
    else if typeTag == Some("Float") then Scalar(NumberType, None)
    else if typeTag == Some("Percentage") then Scalar(NumberType, None)
    else if typeTag == Some("Currency") then Scalar(NumberType, Some(CurrencyHint))
    else if typeTag == Some("MultiSelect") then ArrayOf(StringType)
    else Scalar(StringType, None)
  }

  /** The custom field types with a dedicated property kind. */
  const KNOWN_TYPES: set<Option<string>> :=
    {Some("Url"), Some("Date"), Some("Checkbox"), Some("Float"), Some("Percentage"), Some("Currency"), Some("MultiSelect")}

  /** The property table after writing, for each definition in order, the
      property for its type under its name. Static names are kept, and
      every new name is a definition's. */
  function AddCustomFields(props: map<string, PropertySchema>, defs: seq<CustomFieldDefinition>)
    : (r: map<string, PropertySchema>)
    ensures props.Keys <= r.Keys
    ensures forall k :: k in r ==> k in props || Named(defs, k)
    decreases |defs|
  {
    if |defs| == 0 then props
    else
      var last := defs[|defs| - 1];
      AddCustomFields(props, defs[..|defs| - 1])[last.name := PropertyFor(last.typeTag)]
  }

  predicate Named(defs: seq<CustomFieldDefinition>, name: string)
  {
    exists i :: 0 <= i < |defs| && defs[i].name == name
  }

  /** The keys are the static keys plus the definitions' names. */
  lemma {:induction false} AddCustomFieldsKeys(props: map<string, PropertySchema>, defs: seq<CustomFieldDefinition>)
    ensures AddCustomFields(props, defs).Keys == props.Keys + (set i | 0 <= i < |defs| :: defs[i].name)
    decreases |defs|
  {
    if |defs| > 0 {
      var init := defs[..|defs| - 1];
      var last := defs[|defs| - 1];
      AddCustomFieldsKeys(props, init);
      var all := set i | 0 <= i < |defs| :: defs[i].name;
      var earlier := set i | 0 <= i < |init| :: init[i].name;
      forall n | n in all ensures n in earlier + {last.name} {
        var i :| 0 <= i < |defs| && defs[i].name == n;
        if i < |init| {
          assert init[i] == defs[i];
        }
      }
      forall n | n in earlier ensures n in all {
        var i :| 0 <= i < |init| && init[i].name == n;
        assert defs[i] == init[i];
      }
      assert all == earlier + {last.name};
    }
  }

  /** A definition not followed by another of the same name decides that
      name's property, whatever the static table or earlier definitions said. */
  lemma {:induction false} LaterDefinitionWins(props: map<string, PropertySchema>, defs: seq<CustomFieldDefinition>, k: nat)
    requires k < |defs|
    requires forall j :: k < j < |defs| ==> defs[j].name != defs[k].name
    ensures defs[k].name in AddCustomFields(props, defs)
    ensures AddCustomFields(props, defs)[defs[k].name] == PropertyFor(defs[k].typeTag)
    decreases |defs|
  {
    if k < |defs| - 1 {
      var init := defs[..|defs| - 1];
      LaterDefinitionWins(props, init, k);
    }
  }

  /** A name no definition uses keeps its static property, or stays absent. */
  lemma {:induction false} UnnamedKeepsStatic(props: map<string, PropertySchema>, defs: seq<CustomFieldDefinition>, name: string)
    requires !Named(defs, name)
    ensures name in AddCustomFields(props, defs) <==> name in props
    ensures name in props ==> AddCustomFields(props, defs)[name] == props[name]
    decreases |defs|
  {
    if |defs| > 0 {
      var init := defs[..|defs| - 1];
      assert forall i :: 0 <= i < |init| ==> init[i] == defs[i];
      UnnamedKeepsStatic(props, init, name);
    }
  }

  /** The property of a name some definition uses depends on the
      definitions only, not on the table they are written into. */
  lemma {:induction false} NamedIgnoresBase(p: map<string, PropertySchema>, q: map<string, PropertySchema>,
                                            defs: seq<CustomFieldDefinition>, name: string)
    requires Named(defs, name)
    ensures name in AddCustomFields(p, defs) && name in AddCustomFields(q, defs)
    ensures AddCustomFields(p, defs)[name] == AddCustomFields(q, defs)[name]
    decreases |defs|
  {
    var last := defs[|defs| - 1];
    if last.name != name {
      var init := defs[..|defs| - 1];
      var i :| 0 <= i < |defs| && defs[i].name == name;
      assert init[i] == defs[i];
      NamedIgnoresBase(p, q, init, name);
    }
  }

  /** Because the additions persist in the static table, a second assembly
      with the same definitions changes nothing further. */
  lemma AddCustomFieldsIdempotent(props: map<string, PropertySchema>, defs: seq<CustomFieldDefinition>)
    ensures AddCustomFields(AddCustomFields(props, defs), defs) == AddCustomFields(props, defs)
  {
    var once := AddCustomFields(props, defs);
    var twice := AddCustomFields(once, defs);
    AddCustomFieldsKeys(props, defs);
    AddCustomFieldsKeys(once, defs);
    forall n | n in twice
      ensures n in once && twice[n] == once[n]
    {
      if Named(defs, n) {
        NamedIgnoresBase(once, props, defs, n);
      } else {
        UnnamedKeepsStatic(once, defs, n);
      }
    }
  }

  /** Only definitions available on the record kind add properties. */
  lemma SchemaKeys(props: map<string, PropertySchema>, allDefs: seq<CustomFieldDefinition>, recordType: string)
    ensures AddCustomFields(props, ApplicableDefinitions(allDefs, recordType)).Keys
         == props.Keys + (set d | d in allDefs && recordType in d.availableOn :: d.name)
  {
    var defs := ApplicableDefinitions(allDefs, recordType);
    AddCustomFieldsKeys(props, defs);
    var added := set i | 0 <= i < |defs| :: defs[i].name;
    var applicable := set d | d in allDefs && recordType in d.availableOn :: d.name;
    forall n | n in applicable ensures n in added {
      var d :| d in allDefs && recordType in d.availableOn && d.name == n;
      var i :| 0 <= i < |allDefs| && allDefs[i] == d;
      var j :| 0 <= j < |defs| && defs[j] == d;
    }
  }

  datatype Identity = Identity(name: string, id: Option<string>)

  /** The object schema the assembly returns, as a value. */
  datatype ObjectSchemaValue = ObjectSchemaValue(
    properties: map<string, PropertySchema>,
    displayProperty: string,
    idProperty: string,
    featuredProperties: Option<seq<string>>,
    identity: Identity)

  /** The sync table's schema: an array whose items are the object schema. */
  datatype ArraySchema = ArraySchema(items: ObjectSchemaValue)

  datatype SchemaError = UnknownRecordKind

  function StaticTable(names: seq<string>): (m: map<string, PropertySchema>)
    ensures m.Keys == set n | n in names
  {
    map n | n in names :: StaticProperty
  }

  /** A static object schema. Its property table is the object the
      assembly writes into. */
  class ObjectSchema {
    var properties: map<string, PropertySchema>
    const displayProperty: string
    const idProperty: string
    const featuredProperties: Option<seq<string>>
    const identity: Identity

    constructor (names: seq<string>, displayProperty: string, idProperty: string,
                 featuredProperties: Option<seq<string>>, identity: Identity)
      ensures properties == StaticTable(names)
      ensures this.displayProperty == displayProperty && this.idProperty == idProperty
      ensures this.featuredProperties == featuredProperties && this.identity == identity
    {
      properties := StaticTable(names);
      this.displayProperty := displayProperty;
      this.idProperty := idProperty;
      this.featuredProperties := featuredProperties;
      this.identity := identity;
    }

    /** Writes, for each definition in order, the property for its type
        under its name into this schema's own table. */
    method AddProperties(defs: seq<CustomFieldDefinition>)
      modifies this
      ensures properties == AddCustomFields(old(properties), defs)
    {
      for i := 0 to |defs|
        invariant properties == AddCustomFields(old(properties), defs[..i])
      {
        var customField := defs[i];
        properties := properties[customField.name := PropertyFor(customField.typeTag)];
        assert defs[..i + 1][..i] == defs[..i];
      }
      assert defs[..|defs|] == defs;
    }

    function Snapshot(): (v: ObjectSchemaValue)
      reads this
      ensures v.properties == properties && v.displayProperty == displayProperty && v.idProperty == idProperty
      ensures v.featuredProperties == featuredProperties && v.identity == identity
    {
      ObjectSchemaValue(properties, displayProperty, idProperty, featuredProperties, identity)
    }
  }

  /** The record kinds that have a static schema. */
  datatype RecordKind = Person | Company | Opportunity | Project | Lead | ActivityType

  /** The identity each kind's static schema declares. */
  function DeclaredIdentity(kind: RecordKind): (i: Identity)
    ensures i.id.Some? <==> kind == ActivityType
  {
    match kind
    case Person => Identity("Person", None)
    case Company => Identity("Company", None)
    case Opportunity => Identity("Opportunity", None)
    case Project => Identity("Project", None)
    case Lead => Identity("Lead", None)
    case ActivityType => Identity("ActivityType", Some("id"))
  }

  /** The record-type string that selects a kind. */
  function KindName(kind: RecordKind): (n: string)
    ensures |n| > 0
  {
    match kind
    case Person => "person"
    case Company => "company"
    case Opportunity => "opportunity"
    case Project => "project"
    case Lead => "lead"
    case ActivityType => "activitytype"
  }

  /** The assembler's dispatch on the record type: one of the six kinds,
      or none for any other string. */
  function ParseRecordKind(recordType: string): (k: Option<RecordKind>)
    ensures k.Some? ==> KindName(k.value) == recordType
    ensures k.None? ==> forall kind :: KindName(kind) != recordType
  {
    if recordType == "person" then Some(Person)
    else if recordType == "company" then Some(Company)
    else if recordType == "opportunity" then Some(Opportunity)
    else if recordType == "project" then Some(Project)
    else if recordType == "lead" then Some(Lead)
    else if recordType == "activitytype" then Some(ActivityType)
    else None
  }

  /** Each kind's record-type string selects that kind again. */
  lemma ParseKindName(kind: RecordKind)
    ensures ParseRecordKind(KindName(kind)) == Some(kind)
  {
  }

  /** The six static schemas the assembler extends. */
  class StaticSchemas {
    const person: ObjectSchema
    const company: ObjectSchema
    const opportunity: ObjectSchema
    const project: ObjectSchema
    const lead: ObjectSchema
    const activityType: ObjectSchema

    function Tables(): set<ObjectSchema>
    {
      {person, company, opportunity, project, lead, activityType}
    }

    /** The six tables are distinct objects, each carrying its own kind's
        identity. */
    ghost predicate Valid()
    {
      && |Tables()| == 6
      && person.identity == DeclaredIdentity(Person)
      && company.identity == DeclaredIdentity(Company)
      && opportunity.identity == DeclaredIdentity(Opportunity)
      && project.identity == DeclaredIdentity(Project)
      && lead.identity == DeclaredIdentity(Lead)
      && activityType.identity == DeclaredIdentity(ActivityType)
    }

    constructor ()
      ensures Valid() && fresh(Tables())
      ensures company.Snapshot() == ObjectSchemaValue(StaticTable(COMPANY_PROPERTIES), "companyName", "companyId",
        Some(["fullAddress", "copperUrl", "websites"]), Identity("Company", None))
      ensures person.Snapshot() == ObjectSchemaValue(StaticTable(PERSON_PROPERTIES), "fullName", "personId",
        Some(["title", "company", "primaryEmail", "assignee", "copperUrl"]), Identity("Person", None))
      ensures activityType.Snapshot() == ObjectSchemaValue(StaticTable(ACTIVITY_TYPE_PROPERTIES), "name", "id",
        None, Identity("ActivityType", Some("id")))
      ensures lead.Snapshot() == ObjectSchemaValue(StaticTable(LEAD_PROPERTIES), "name", "id",
        Some(["email", "phone", "status"]), Identity("Lead", None))
      ensures opportunity.Snapshot() == ObjectSchemaValue(StaticTable(OPPORTUNITY_PROPERTIES), "opportunityName",
        "opportunityId", Some(["company", "primaryContact", "status", "monetaryValue", "copperUrl"]),
        Identity("Opportunity", None))
      ensures project.Snapshot() == ObjectSchemaValue(StaticTable(PROJECT_PROPERTIES), "name", "id",
        Some(["status", "assignee", "company", "opportunity"]), Identity("Project", None))
    {
      company := new ObjectSchema(COMPANY_PROPERTIES, "companyName", "companyId",
        Some(["fullAddress", "copperUrl", "websites"]), Identity("Company", None));
      person := new ObjectSchema(PERSON_PROPERTIES, "fullName", "personId",
        Some(["title", "company", "primaryEmail", "assignee", "copperUrl"]), Identity("Person", None));
      activityType := new ObjectSchema(ACTIVITY_TYPE_PROPERTIES, "name", "id",
        None, Identity("ActivityType", Some("id")));
      lead := new ObjectSchema(LEAD_PROPERTIES, "name", "id",
        Some(["email", "phone", "status"]), Identity("Lead", None));
      opportunity := new ObjectSchema(OPPORTUNITY_PROPERTIES, "opportunityName", "opportunityId",
        Some(["company", "primaryContact", "status", "monetaryValue", "copperUrl"]), Identity("Opportunity", None));
      project := new ObjectSchema(PROJECT_PROPERTIES, "name", "id",
        Some(["status", "assignee", "company", "opportunity"]), Identity("Project", None));
    }

    /** The static schema of a record kind: the one table carrying that
        kind's identity. */
    function StaticSchemaFor(kind: RecordKind): (s: ObjectSchema)
      requires Valid()
      ensures s in Tables() && s.identity == DeclaredIdentity(kind)
    {
      match kind
      case Person => person
      case Company => company
      case Opportunity => opportunity
      case Project => project
      case Lead => lead
      case ActivityType => activityType
    }

    /** The one table an assembly for `recordType` may write into. */
    function Footprint(recordType: string): set<ObjectSchema>
      requires Valid()
    {
      match ParseRecordKind(recordType)
      case None => {}
      case Some(kind) => {StaticSchemaFor(kind)}
    }

    /** Adds each applicable definition's property to the record kind's
        static table, in order, and returns the extended schema wrapped as
        an array schema. Nothing else changes. */
    method GetSchemaWithCustomFields(recordType: string, allCustomFields: seq<CustomFieldDefinition>)
      returns (r: Result<ArraySchema, SchemaError>)
      requires Valid()
      modifies Footprint(recordType)
      ensures ParseRecordKind(recordType).None? ==> r == Failure(UnknownRecordKind)
      ensures ParseRecordKind(recordType).Some? ==>
              var s := StaticSchemaFor(ParseRecordKind(recordType).value);
              && s.properties == AddCustomFields(old(s.properties), ApplicableDefinitions(allCustomFields, recordType))
              && r == Success(ArraySchema(s.Snapshot()))
              && r.value.items.identity == DeclaredIdentity(ParseRecordKind(recordType).value)
    {
      var kind := ParseRecordKind(recordType);
      if kind.None? {
        return Failure(UnknownRecordKind);
      }
      var staticSchema := StaticSchemaFor(kind.value);
      var applicable := ApplicableDefinitions(allCustomFields, recordType);
      staticSchema.AddProperties(applicable);
      r := Success(ArraySchema(staticSchema.Snapshot()));
    }
  }

  /** Assembling a known kind twice with the same definitions returns the
      same schema: the second call rewrites the names the first call added
      with the same properties. */
  method AssembleTwice(schemas: StaticSchemas, recordType: string, allCustomFields: seq<CustomFieldDefinition>)
    returns (first: Result<ArraySchema, SchemaError>, second: Result<ArraySchema, SchemaError>)
    requires schemas.Valid() && ParseRecordKind(recordType).Some?
    modifies schemas.Footprint(recordType)
    ensures first.Success? && first == second
  {
    var s := schemas.StaticSchemaFor(ParseRecordKind(recordType).value);
    first := schemas.GetSchemaWithCustomFields(recordType, allCustomFields);
    AddCustomFieldsIdempotent(old(s.properties), ApplicableDefinitions(allCustomFields, recordType));
    second := schemas.GetSchemaWithCustomFields(recordType, allCustomFields);
  }

  /** Because the additions persist in the static table, a field that a
      first assembly added outlives its definition: a second assembly with
      other definitions returns the static names, the second list's
      applicable names and still the first list's applicable names. */
  method StaleFieldOutlivesDefinition(schemas: StaticSchemas, recordType: string,
                                      earlier: seq<CustomFieldDefinition>, later: seq<CustomFieldDefinition>)
    returns (first: Result<ArraySchema, SchemaError>, second: Result<ArraySchema, SchemaError>)
    requires schemas.Valid() && ParseRecordKind(recordType).Some?
    modifies schemas.Footprint(recordType)
    ensures first.Success? && second.Success?
    ensures var s := schemas.StaticSchemaFor(ParseRecordKind(recordType).value);
      var a := ApplicableDefinitions(earlier, recordType);
      var b := ApplicableDefinitions(later, recordType);
      second.value.items.properties.Keys
        == old(s.properties).Keys + (set i | 0 <= i < |a| :: a[i].name) + (set i | 0 <= i < |b| :: b[i].name)
  {
    var s := schemas.StaticSchemaFor(ParseRecordKind(recordType).value);
    var a := ApplicableDefinitions(earlier, recordType);
    var b := ApplicableDefinitions(later, recordType);
    first := schemas.GetSchemaWithCustomFields(recordType, earlier);
    AddCustomFieldsKeys(old(s.properties), a);
    ghost var between := s.properties;
    second := schemas.GetSchemaWithCustomFields(recordType, later);
    AddCustomFieldsKeys(between, b);
  }

  /** Example: a currency field available on opportunities becomes a number property
      with a currency hint in the opportunity table, and adds nothing to a
      company table that did not already declare its name. */
  lemma CurrencyFieldOnOpportunitiesOnly(opportunityProps: map<string, PropertySchema>,
                                         companyProps: map<string, PropertySchema>)
    requires "Deal Size" !in companyProps
    ensures var def := CustomFieldDefinition(1, "Deal Size", "Currency", Some("Currency"), ["opportunity"], []);
      && AddCustomFields(opportunityProps, ApplicableDefinitions([def], "opportunity"))["Deal Size"]
         == Scalar(NumberType, Some(CurrencyHint))
      && "Deal Size" !in AddCustomFields(companyProps, ApplicableDefinitions([def], "company"))
  {
  }

  const COMPANY_PROPERTIES: seq<string> := [
    "companyName", "fullAddress", "assignee", "tags", "copperUrl", "details", "phoneNumbers",
    "emailDomain", "interactionCount", "socials", "websites", "street", "city", "state",
    "postalCode", "country", "dateCreated", "dateModified", "contactTypeId", "assigneeId", "companyId"]

  const PERSON_PROPERTIES: seq<string> := [
    "fullName", "title", "company", "assignee", "copperUrl", "tags", "contactType", "fullAddress",
    "details", "primaryEmail", "emails", "phoneNumbers", "socials", "websites", "prefix",
    "firstName", "middleName", "lastName", "suffix", "street", "city", "state", "postalCode",
    "country", "interactionCount", "dateCreated", "dateModified", "personId"]

  const ACTIVITY_TYPE_PROPERTIES: seq<string> := ["id", "category", "name", "is_disabled", "count_as_interaction"]

  const LEAD_PROPERTIES: seq<string> := [
    "id", "name", "email", "phone", "status", "source", "date_created", "date_modified"]

  const OPPORTUNITY_PROPERTIES: seq<string> := [
    "opportunityName", "primaryContact", "company", "status", "assignee", "pipelineStage",
    "closeDate", "monetaryValue", "copperUrl", "priority", "tags", "customerSource", "details",
    "lossReason", "pipeline", "interactionCount", "winProbability", "dateLastContacted",
    "dateCreated", "dateModified", "primaryContactId", "assigneeId", "companyId", "companyName",
    "opportunityId"]

  const PROJECT_PROPERTIES: seq<string> := [
    "id", "name", "opportunity", "company", "assignee", "assignee_id", "status", "details", "tags",
    "date_created", "date_modified"]
}
