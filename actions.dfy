/** The action formulas: each validates the user's input against reference
    data the CRM returned, and either yields the body of the write (PUT)
    request or fails with a user-visible error carrying the valid
    alternatives. The outcome of the identifier parsing and record-kind
    check is the input `kindOk`; the reference data and the fetched record
    are inputs; the helpers whose source is not part of this model
    (`initialCapital`, `stripAndLowercase`, the date conversion) are
    function-valued inputs about which nothing is assumed. */
module Actions {
  import opened Wrappers
  import opened Seqs
  import opened Copper

  datatype ActionError =
    | WrongRecordKind                       // the record-kind check threw
    | BlankName
    | InvalidStatus(options: seq<string>)
    | UnknownLossReason(names: seq<string>)
    | NoSuchPipeline                        // no pipeline has the opportunity's id, so reading its stages throws
    | UnknownStage(names: seq<string>)
    | UnknownAssignee(emails: seq<string>)
    | UnknownCustomField(names: seq<string>)
    | UnknownOption(names: seq<string>)

  /** A value in the body of a write request. */
  datatype WriteValue =
    | Text(text: string)
    | Ref(id: Id)
    | Flag(flag: bool)
    | TagList(tags: seq<string>)
    | FieldList(fields: seq<CustomFieldValue>)

  type WriteBody = map<string, WriteValue>

  const COMPUTED_VALUES: string := "custom_field_computed_values"

  /** The payload with the computed-values flag switched on: every write
      body asks the CRM to return computed custom-field values. */
  function WithComputedValues(payload: WriteBody): (b: WriteBody)
    ensures b.Keys == payload.Keys + {COMPUTED_VALUES}
    ensures b[COMPUTED_VALUES] == Flag(true)
    ensures forall k :: k in payload && k != COMPUTED_VALUES ==> b[k] == payload[k]
  {
    payload[COMPUTED_VALUES := Flag(true)]
  }

  /** A loss reason is looked up only when one is given and the status is
      Lost; an empty reason counts as none. */
  predicate LossReasonApplies(lossReason: Option<string>, status: string): (b: bool)
    ensures b ==> lossReason.Some? && status == "Lost"
    ensures lossReason == Some("") ==> !b
    ensures status != "Lost" ==> !b
  {
    lossReason.Some? && lossReason.value != "" && status == "Lost"
  }

  /** Status change, with an optional loss reason. The payload starts as
      the status alone and gains `loss_reason_id` afterwards. */
  method UpdateOpportunityStatus(kindOk: bool, newStatus: string, lossReason: Option<string>,
                                 statusOptions: seq<string>, lossReasons: seq<LossReason>,
                                 initialCapital: string -> string)
    returns (r: Result<WriteBody, ActionError>)
    ensures !kindOk ==> r == Failure(WrongRecordKind)
    ensures kindOk && initialCapital(newStatus) !in statusOptions ==> r == Failure(InvalidStatus(statusOptions))
    ensures kindOk && initialCapital(newStatus) in statusOptions
            && LossReasonApplies(lossReason, initialCapital(newStatus))
            && FindLossReason(lossReasons, lossReason.value).None?
            ==> r == Failure(UnknownLossReason(LossReasonNames(lossReasons)))
    ensures r.Success? <==>
            kindOk && initialCapital(newStatus) in statusOptions
            && (LossReasonApplies(lossReason, initialCapital(newStatus)) ==>
                  exists i :: 0 <= i < |lossReasons| && lossReasons[i].name == lossReason.value)
    ensures r.Success? ==>
            && r.value.Keys == {"status", COMPUTED_VALUES}
                 + (if LossReasonApplies(lossReason, initialCapital(newStatus)) then {"loss_reason_id"} else {})
            && r.value["status"] == Text(initialCapital(newStatus))
            && r.value[COMPUTED_VALUES] == Flag(true)
    ensures r.Success? && LossReasonApplies(lossReason, initialCapital(newStatus)) ==>
            var k := FindLossReason(lossReasons, lossReason.value).value;
            r.value["loss_reason_id"] == Ref(lossReasons[k].id)
  {
    if !kindOk {
      return Failure(WrongRecordKind);
    }
    var status := initialCapital(newStatus);
    if status !in statusOptions {
      return Failure(InvalidStatus(statusOptions));
    }
    var payload: WriteBody := map["status" := Text(status)];
    if LossReasonApplies(lossReason, status) {
      var found := FindLossReason(lossReasons, lossReason.value);
      if found.None? {
        return Failure(UnknownLossReason(LossReasonNames(lossReasons)));
      }
      payload := payload["loss_reason_id" := Ref(lossReasons[found.value].id)];
    }
    r := Success(WithComputedValues(payload));
  }

  /** Stage change: the first stage of the opportunity's own pipeline whose
      name matches the request case-insensitively. */
  function UpdateOpportunityStage(kindOk: bool, pipelineId: Id, newStageName: string,
                                  pipelines: seq<Pipeline>): (r: Result<WriteBody, ActionError>)
    ensures !kindOk ==> r == Failure(WrongRecordKind)
    ensures kindOk && FindPipeline(pipelines, pipelineId).None? ==> r == Failure(NoSuchPipeline)
    ensures kindOk && FindPipeline(pipelines, pipelineId).Some? ==>
            var stages := pipelines[FindPipeline(pipelines, pipelineId).value].stages;
            match FindStage(stages, newStageName)
            case None => r == Failure(UnknownStage(StageNames(stages)))
            case Some(k) => r == Success(WithComputedValues(map["pipeline_stage_id" := Ref(stages[k].id)]))
  {
    if !kindOk then Failure(WrongRecordKind)
    else match FindPipeline(pipelines, pipelineId)
      case None => Failure(NoSuchPipeline)
      case Some(p) =>
        var stages := pipelines[p].stages;
        match FindStage(stages, newStageName)
        case None => Failure(UnknownStage(StageNames(stages)))
        case Some(k) => Success(WithComputedValues(map["pipeline_stage_id" := Ref(stages[k].id)]))
  }

  /** A successful stage change writes only the stage id (and the flag),
      and its value is the id of a stage of the opportunity's pipeline whose
      name matches the request up to case. */
  lemma StageWriteIsOnlyAMatchingStage(kindOk: bool, pipelineId: Id, newStageName: string, pipelines: seq<Pipeline>)
    requires UpdateOpportunityStage(kindOk, pipelineId, newStageName, pipelines).Success?
    ensures var body := UpdateOpportunityStage(kindOk, pipelineId, newStageName, pipelines).value;
      && body.Keys == {"pipeline_stage_id", COMPUTED_VALUES}
      && exists p, k :: 0 <= p < |pipelines| && pipelines[p].id == pipelineId
           && 0 <= k < |pipelines[p].stages| && Lower(pipelines[p].stages[k].name) == Lower(newStageName)
           && body["pipeline_stage_id"] == Ref(pipelines[p].stages[k].id)
  {
  }

  /** Rename: a blank name is rejected before the identifier is looked at. */
  function RenameOpportunity(kindOk: bool, newName: string): (r: Result<WriteBody, ActionError>)
    ensures newName == "" ==> r == Failure(BlankName)
    ensures newName != "" && !kindOk ==> r == Failure(WrongRecordKind)
    ensures r.Success? <==> newName != "" && kindOk
    ensures r.Success? ==> r.value.Keys == {"name", COMPUTED_VALUES} && r.value["name"] == Text(newName)
  {
    if newName == "" then Failure(BlankName)
    else if !kindOk then Failure(WrongRecordKind)
    else Success(WithComputedValues(map["name" := Text(newName)]))
  }

  /** Assignment: the assignee must be a user with exactly this email. */
  function AssignRecord(kindOk: bool, assigneeEmail: string, users: seq<User>): (r: Result<WriteBody, ActionError>)
    ensures !kindOk ==> r == Failure(WrongRecordKind)
    ensures kindOk && FindUser(users, assigneeEmail).None? ==> r == Failure(UnknownAssignee(Emails(users)))
    ensures r.Success? <==> kindOk && exists i :: 0 <= i < |users| && users[i].email == assigneeEmail
    ensures r.Success? ==>
            && r.value.Keys == {"assignee_id", COMPUTED_VALUES}
            && r.value["assignee_id"] == Ref(users[FindUser(users, assigneeEmail).value].id)
  {
    if !kindOk then Failure(WrongRecordKind)
    else match FindUser(users, assigneeEmail)
      case None => Failure(UnknownAssignee(Emails(users)))
      case Some(k) => Success(WithComputedValues(map["assignee_id" := Ref(users[k].id)]))
  }

  /** Whether a tag differs from the one being removed. */
  function NotTag(tag: string): (p: string -> bool)
    ensures forall t :: p(t) <==> t != tag
  {
    (t: string) => t != tag
  }

  /** The tag list with every copy of the tag filtered out. */
  function RemoveTag(tags: seq<string>, tag: string): (r: seq<string>)
    ensures |r| <= |tags|
    ensures forall i :: 0 <= i < |r| ==> r[i] != tag && r[i] in tags
  {
    Filter(tags, NotTag(tag))
  }

  /** Removal drops every copy of the tag, keeps every copy of every other
      tag, and leaves a list without the tag as it was. */
  lemma RemoveTagSpec(tags: seq<string>, tag: string)
    ensures tag !in RemoveTag(tags, tag)
    ensures forall t :: t != tag ==> multiset(RemoveTag(tags, tag))[t] == multiset(tags)[t]
    ensures tag !in tags ==> RemoveTag(tags, tag) == tags
  {
    forall t | t != tag
      ensures multiset(RemoveTag(tags, tag))[t] == multiset(tags)[t]
    {
      FilterCount(tags, NotTag(tag), t);
    }
    FilterCount(tags, NotTag(tag), tag);
    if tag !in tags {
      FilterKeepsAll(tags, NotTag(tag));
    }
  }

  /** Removal keeps the remaining tags in their order: it works piecewise on
      concatenations and keeps any other single tag. */
  lemma RemoveTagKeepsOrder(a: seq<string>, b: seq<string>, tag: string)
    ensures RemoveTag(a + b, tag) == RemoveTag(a, tag) + RemoveTag(b, tag)
    ensures forall t :: t != tag ==> RemoveTag([t], tag) == [t]
    ensures RemoveTag([tag], tag) == []
  {
    FilterAppend(a, b, NotTag(tag));
  }

  /** The record fetched before a tag or custom-field edit: the arrays the
      action edits and then sends back. */
  class FetchedRecord {
    var tags: seq<string>
    var customFields: seq<CustomFieldValue>

    constructor (tags: seq<string>, customFields: seq<CustomFieldValue>)
      ensures this.tags == tags && this.customFields == customFields
    {
      this.tags := tags;
      this.customFields := customFields;
    }
  }

  /** Tag edit. Adding pushes onto the fetched record's own array (no
      de-duplication); removing builds a filtered copy and leaves the
      fetched array alone. */
  method AddOrRemoveTag(record: FetchedRecord, kindOk: bool, tag: string, remove: bool)
    returns (r: Result<WriteBody, ActionError>)
    modifies record
    ensures record.customFields == old(record.customFields)
    ensures !kindOk ==> r == Failure(WrongRecordKind) && record.tags == old(record.tags)
    ensures kindOk && remove ==>
            && record.tags == old(record.tags)
            && r == Success(WithComputedValues(map["tags" := TagList(RemoveTag(old(record.tags), tag))]))
    ensures kindOk && !remove ==>
            && record.tags == old(record.tags) + [tag]
            && |record.tags| == |old(record.tags)| + 1
            && r == Success(WithComputedValues(map["tags" := TagList(record.tags)]))
  {
    if !kindOk {
      return Failure(WrongRecordKind);
    }
    var tags := record.tags;
    if remove {
      tags := RemoveTag(tags, tag);
    } else {
      record.tags := record.tags + [tag];
      tags := record.tags;
    }
    r := Success(WithComputedValues(map["tags" := TagList(tags)]));
  }

  /** The definition a custom-field update targets: the first definition
      available on the record kind whose normalised name matches. */
  function TargetDefinition(allDefs: seq<CustomFieldDefinition>, recordType: string, fieldName: string,
                            normalize: string -> string): (r: Result<CustomFieldDefinition, ActionError>)
    ensures r.Failure? ==> r.error == UnknownCustomField(DefinitionNames(ApplicableDefinitions(allDefs, recordType)))
    ensures r.Failure? ==> forall i :: 0 <= i < |allDefs| && recordType in allDefs[i].availableOn
                             ==> normalize(allDefs[i].name) != normalize(fieldName)
    ensures r.Success? ==> r.value in allDefs && recordType in r.value.availableOn
                           && normalize(r.value.name) == normalize(fieldName)
  {
    var defs := ApplicableDefinitions(allDefs, recordType);
    match FindDefinition(defs, fieldName, normalize)
    case None => Failure(UnknownCustomField(DefinitionNames(defs)))
    case Some(k) => Success(defs[k])
  }

  /** Among the definitions available on the record kind, the target is the
      first match; no earlier applicable definition matches. */
  lemma TargetIsFirstApplicableMatch(allDefs: seq<CustomFieldDefinition>, recordType: string, fieldName: string,
                                     normalize: string -> string)
    requires TargetDefinition(allDefs, recordType, fieldName, normalize).Success?
    ensures var defs := ApplicableDefinitions(allDefs, recordType);
      exists k :: 0 <= k < |defs| && defs[k] == TargetDefinition(allDefs, recordType, fieldName, normalize).value
        && forall j :: 0 <= j < k ==> normalize(defs[j].name) != normalize(fieldName)
  {
  }

  /** The value sent for a definition: dropdowns send the id of the first
      option whose normalised name matches (a miss or a falsy id is an
      error), dates go through the date conversion, and every other type
      passes the text through unchanged. */
  function PrepareValue(def: CustomFieldDefinition, newValue: string, normalize: string -> string,
                        toEpochSeconds: string -> FieldValue): (r: Result<FieldValue, ActionError>)
    ensures def.dataType == "Date" ==> r == Success(toEpochSeconds(newValue))
    ensures def.dataType == "Dropdown" ==>
            (r.Success? <==> exists k :: FindOption(def.options, newValue, normalize) == Some(k) && def.options[k].id != 0)
    ensures def.dataType == "Dropdown" && r.Success? ==>
            r.value == NumberValue(def.options[FindOption(def.options, newValue, normalize).value].id)
    ensures def.dataType == "Dropdown" && r.Failure? ==> r.error == UnknownOption(OptionNames(def.options))
    ensures def.dataType != "Date" && def.dataType != "Dropdown" ==> r == Success(TextValue(newValue))
  {
    if def.dataType == "Date" then Success(toEpochSeconds(newValue))
    else if def.dataType == "Dropdown" then
      match FindOption(def.options, newValue, normalize)
      case Some(k) =>
        if def.options[k].id != 0 then Success(NumberValue(def.options[k].id))
        else Failure(UnknownOption(OptionNames(def.options)))
      case None => Failure(UnknownOption(OptionNames(def.options)))
    else Success(TextValue(newValue))
  }

  /** The definition and prepared value of a custom-field update, or the
      validation error that stops it before anything is edited. */
  function PreparedEdit(allDefs: seq<CustomFieldDefinition>, recordType: string, fieldName: string, newValue: string,
                        normalize: string -> string, toEpochSeconds: string -> FieldValue)
    : (r: Result<(CustomFieldDefinition, FieldValue), ActionError>)
    ensures r.Success? ==> TargetDefinition(allDefs, recordType, fieldName, normalize) == Success(r.value.0)
                           && PrepareValue(r.value.0, newValue, normalize, toEpochSeconds) == Success(r.value.1)
    ensures r.Failure? ==> TargetDefinition(allDefs, recordType, fieldName, normalize).Failure?
                           || PrepareValue(TargetDefinition(allDefs, recordType, fieldName, normalize).value,
                                           newValue, normalize, toEpochSeconds).Failure?
    ensures r.Failure? ==>
              r.error == (if TargetDefinition(allDefs, recordType, fieldName, normalize).Failure?
                          then TargetDefinition(allDefs, recordType, fieldName, normalize).error
                          else PrepareValue(TargetDefinition(allDefs, recordType, fieldName, normalize).value,
                                            newValue, normalize, toEpochSeconds).error)
  {
    match TargetDefinition(allDefs, recordType, fieldName, normalize)
    case Failure(e) => Failure(e)
    case Success(def) =>
      match PrepareValue(def, newValue, normalize, toEpochSeconds)
      case Failure(e) => Failure(e)
      case Success(v) => Success((def, v))
  }

  /** The record's custom-field entries once the first entry for the
      definition holds the new value. */
  function SetFieldValue(fields: seq<CustomFieldValue>, definitionId: Id, value: FieldValue): (r: seq<CustomFieldValue>)
    requires FindEntry(fields, definitionId).Some?
    ensures |r| == |fields|
    ensures var k := FindEntry(fields, definitionId).value;
      && r[k] == CustomFieldValue(definitionId, value)
      && forall j :: 0 <= j < |fields| && j != k ==> r[j] == fields[j]
    ensures FindEntry(r, definitionId) == FindEntry(fields, definitionId)
  {
    var k := FindEntry(fields, definitionId).value;
    fields[k := fields[k].(value := value)]
  }

  /** Custom-field update. The entry for the target definition is assumed to
      exist in the record (the source dereferences the search result). */
  method UpdateCustomField(record: FetchedRecord, kindOk: bool, recordType: string, fieldName: string, newValue: string,
                           allDefs: seq<CustomFieldDefinition>, normalize: string -> string,
                           toEpochSeconds: string -> FieldValue)
    returns (r: Result<WriteBody, ActionError>)
    requires kindOk && PreparedEdit(allDefs, recordType, fieldName, newValue, normalize, toEpochSeconds).Success? ==>
             FindEntry(record.customFields,
                       PreparedEdit(allDefs, recordType, fieldName, newValue, normalize, toEpochSeconds).value.0.id).Some?
    modifies record
    ensures record.tags == old(record.tags)
    ensures !kindOk ==> r == Failure(WrongRecordKind) && record.customFields == old(record.customFields)
    ensures kindOk ==>
            match PreparedEdit(allDefs, recordType, fieldName, newValue, normalize, toEpochSeconds)
            case Failure(e) => r == Failure(e) && record.customFields == old(record.customFields)
            case Success(edit) =>
              && record.customFields == SetFieldValue(old(record.customFields), edit.0.id, edit.1)
              && r == Success(WithComputedValues(map["custom_fields" := FieldList(record.customFields)]))
  {
    if !kindOk {
      return Failure(WrongRecordKind);
    }
    var target := TargetDefinition(allDefs, recordType, fieldName, normalize);
    if target.Failure? {
      return Failure(target.error);
    }
    var prepared := PrepareValue(target.value, newValue, normalize, toEpochSeconds);
    if prepared.Failure? {
      return Failure(prepared.error);
    }
    var k := FindEntry(record.customFields, target.value.id).value;
    record.customFields := record.customFields[k := record.customFields[k].(value := prepared.value)];
    r := Success(WithComputedValues(map["custom_fields" := FieldList(record.customFields)]));
  }
}
