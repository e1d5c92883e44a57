/** The shapes of the CRM's reference data and records that the decision
    logic reads, and the searches it performs over them. */
module Copper {
  import opened Wrappers
  import opened Seqs

  /** CRM identifiers are numbers; an id of 0 is falsy in the source. */
  type Id = int

  datatype LossReason = LossReason(id: Id, name: string)

  datatype Stage = Stage(id: Id, name: string)

  /** A pipeline owns an ordered sequence of stages. */
  datatype Pipeline = Pipeline(id: Id, stages: seq<Stage>)

  datatype User = User(id: Id, email: string)

  datatype DropdownOption = DropdownOption(id: Id, name: string)

  /** A custom field definition. The action code reads `data_type`; the
      schema code reads `type`, which is absent (None) on definitions that
      carry no such member. */
  datatype CustomFieldDefinition = CustomFieldDefinition(
    id: Id,
    name: string,
    dataType: string,
    typeTag: Option<string>,
    availableOn: seq<string>,
    options: seq<DropdownOption>)

  /** A value stored in a record's custom field. */
  datatype FieldValue = NoValue | TextValue(text: string) | NumberValue(number: int) | FlagValue(flag: bool)

  /** One entry of a record's `custom_fields` array. */
  datatype CustomFieldValue = CustomFieldValue(definitionId: Id, value: FieldValue)

  /** Lower-casing of one character, for ASCII capitals only. */
  function LowerChar(c: char): (d: char)
    ensures 'A' <= c <= 'Z' ==> d as int == c as int + 32
    ensures !('A' <= c <= 'Z') ==> d == c
    ensures !('A' <= d <= 'Z')
  {
    if 'A' <= c <= 'Z' then (c as int + 32) as char else c
  }

  /** Lower-casing of a string, character by character; the result holds
      no ASCII capital. */
  function Lower(s: string): (r: string)
    ensures |r| == |s|
    ensures forall i :: 0 <= i < |s| ==> r[i] == LowerChar(s[i])
    ensures forall i :: 0 <= i < |r| ==> !('A' <= r[i] <= 'Z')
  {
    seq(|s|, i requires 0 <= i < |s| => LowerChar(s[i]))
  }

  /** The loss reason whose name equals `name` exactly (no case folding). */
  function FindLossReason(reasons: seq<LossReason>, name: string): (r: Option<nat>)
    ensures r.Some? ==> r.value < |reasons| && reasons[r.value].name == name
    ensures r.Some? ==> forall j :: 0 <= j < r.value ==> reasons[j].name != name
    ensures r.None? <==> forall j :: 0 <= j < |reasons| ==> reasons[j].name != name
  {
    FindFirst(reasons, (x: LossReason) => x.name == name)
  }

  /** The pipeline with the given id. */
  function FindPipeline(pipelines: seq<Pipeline>, id: Id): (r: Option<nat>)
    ensures r.Some? ==> r.value < |pipelines| && pipelines[r.value].id == id
    ensures r.Some? ==> forall j :: 0 <= j < r.value ==> pipelines[j].id != id
    ensures r.None? <==> forall j :: 0 <= j < |pipelines| ==> pipelines[j].id != id
  {
    FindFirst(pipelines, (x: Pipeline) => x.id == id)
  }

  /** The first stage whose lower-cased name equals the lower-cased request. */
  function FindStage(stages: seq<Stage>, requested: string): (r: Option<nat>)
    ensures r.Some? ==> r.value < |stages| && Lower(stages[r.value].name) == Lower(requested)
    ensures r.Some? ==> forall j :: 0 <= j < r.value ==> Lower(stages[j].name) != Lower(requested)
    ensures r.None? <==> forall j :: 0 <= j < |stages| ==> Lower(stages[j].name) != Lower(requested)
  {
    FindFirst(stages, (x: Stage) => Lower(x.name) == Lower(requested))
  }

  /** The first user whose email equals `email` exactly. */
  function FindUser(users: seq<User>, email: string): (r: Option<nat>)
    ensures r.Some? ==> r.value < |users| && users[r.value].email == email
    ensures r.Some? ==> forall j :: 0 <= j < r.value ==> users[j].email != email
    ensures r.None? <==> forall j :: 0 <= j < |users| ==> users[j].email != email
  {
    FindFirst(users, (x: User) => x.email == email)
  }

  /** The definitions whose `available_on` list contains the record kind. */
  function ApplicableDefinitions(defs: seq<CustomFieldDefinition>, recordType: string): (r: seq<CustomFieldDefinition>)
    ensures forall i :: 0 <= i < |r| ==> r[i] in defs && recordType in r[i].availableOn
    ensures forall i :: 0 <= i < |defs| && recordType in defs[i].availableOn ==> defs[i] in r
  {
    Filter(defs, AvailableOn(recordType))
  }

  /** Whether a definition is available on the record kind. */
  function AvailableOn(recordType: string): (p: CustomFieldDefinition -> bool)
    ensures forall d :: p(d) <==> recordType in d.availableOn
  {
    (d: CustomFieldDefinition) => recordType in d.availableOn
  }

  /** The first definition whose normalised name equals the normalised request. */
  function FindDefinition(defs: seq<CustomFieldDefinition>, fieldName: string, normalize: string -> string): (r: Option<nat>)
    ensures r.Some? ==> r.value < |defs| && normalize(defs[r.value].name) == normalize(fieldName)
    ensures r.Some? ==> forall j :: 0 <= j < r.value ==> normalize(defs[j].name) != normalize(fieldName)
    ensures r.None? <==> forall j :: 0 <= j < |defs| ==> normalize(defs[j].name) != normalize(fieldName)
  {
    FindFirst(defs, (x: CustomFieldDefinition) => normalize(x.name) == normalize(fieldName))
  }

  /** The first dropdown option whose normalised name equals the normalised value. */
  function FindOption(options: seq<DropdownOption>, value: string, normalize: string -> string): (r: Option<nat>)
    ensures r.Some? ==> r.value < |options| && normalize(options[r.value].name) == normalize(value)
    ensures r.Some? ==> forall j :: 0 <= j < r.value ==> normalize(options[j].name) != normalize(value)
    ensures r.None? <==> forall j :: 0 <= j < |options| ==> normalize(options[j].name) != normalize(value)
  {
    FindFirst(options, (x: DropdownOption) => normalize(x.name) == normalize(value))
  }

  /** The first `custom_fields` entry for the given definition id. */
  function FindEntry(fields: seq<CustomFieldValue>, definitionId: Id): (r: Option<nat>)
    ensures r.Some? ==> r.value < |fields| && fields[r.value].definitionId == definitionId
    ensures r.Some? ==> forall j :: 0 <= j < r.value ==> fields[j].definitionId != definitionId
    ensures r.None? <==> forall j :: 0 <= j < |fields| ==> fields[j].definitionId != definitionId
  {
    FindFirst(fields, (x: CustomFieldValue) => x.definitionId == definitionId)
  }

  /** The names of the loss reasons, in order, for error messages. */
  function LossReasonNames(reasons: seq<LossReason>): (names: seq<string>)
    ensures |names| == |reasons| && forall i :: 0 <= i < |reasons| ==> names[i] == reasons[i].name
  {
    MapSeq(reasons, (x: LossReason) => x.name)
  }

  /** The names of a pipeline's stages, in order, for error messages. */
  function StageNames(stages: seq<Stage>): (names: seq<string>)
    ensures |names| == |stages| && forall i :: 0 <= i < |stages| ==> names[i] == stages[i].name
  {
    MapSeq(stages, (x: Stage) => x.name)
  }

  /** The users' emails, in order, for error messages. */
  function Emails(users: seq<User>): (names: seq<string>)
    ensures |names| == |users| && forall i :: 0 <= i < |users| ==> names[i] == users[i].email
  {
    MapSeq(users, (x: User) => x.email)
  }

  /** The definitions' names, in order, for error messages. */
  function DefinitionNames(defs: seq<CustomFieldDefinition>): (names: seq<string>)
    ensures |names| == |defs| && forall i :: 0 <= i < |defs| ==> names[i] == defs[i].name
  {
    MapSeq(defs, (x: CustomFieldDefinition) => x.name)
  }

  /** The dropdown options' names, in order, for error messages. */
  function OptionNames(options: seq<DropdownOption>): (names: seq<string>)
    ensures |names| == |options| && forall i :: 0 <= i < |options| ==> names[i] == options[i].name
  {
    MapSeq(options, (x: DropdownOption) => x.name)
  }

  /** The stage search ignores ASCII case: requests that lower-case alike
      select the same stage. */
  lemma StageSearchIgnoresCase(stages: seq<Stage>, a: string, b: string)
    requires Lower(a) == Lower(b)
    ensures FindStage(stages, a) == FindStage(stages, b)
  {
  }

  /** Example: the loss-reason search is case-sensitive, so a name
      differing only in case from the single known reason is not found. */
  lemma LossReasonSearchIsExact()
    ensures FindLossReason([LossReason(7, "Price")], "Price") == Some(0)
    ensures FindLossReason([LossReason(7, "Price")], "price") == None
  {
  }
}
