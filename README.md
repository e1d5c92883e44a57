# coda-copper decision layer, modelled in Dafny

The repository adapts the Copper CRM's REST API to a Coda pack. Most of it
is HTTP glue. This model covers the small, sequential decision layer left
once every HTTP result is treated as an input value:

- **Listing continuation** (`paging.dfy`, module `Paging`). Each sync
  function reads the page number from the incoming continuation and
  defaults to page 1. It hands back a continuation for `pageNumber + 1`
  exactly when the page came back full. The module also gives the request
  each listing sends and the enriched result it returns. The activity-type
  listing joins user types and system types before the full-page test. A
  ghost function `Drive` describes a host that keeps re-invoking a listing
  with the continuation it was handed. Lemmas prove that the continuation
  numbers run 1, 2, 3, ... and stop right after the first short page. For
  the five listings that send a page number, these are the pages
  requested. The projects listing sends the same request on every call,
  so when that request returns a full page, every later call returns a
  full page too and the traversal does not end.
- **Actions** (`actions.dfy`, module `Actions`, with the searches in
  `copper.dfy`, module `Copper`). These are status, stage, rename, assign,
  tag and custom-field updates. Each checks the user's input against the
  reference data. It then yields the write body, with only the changed
  field and the `custom_field_computed_values` flag, or an error carrying
  the valid alternatives. The status payload is built step by step in a
  method. The tag and custom-field edits change the fetched record in
  place, so they are methods that edit a `FetchedRecord` object.
- **Schema assembly** (`schemas.dfy`, module `Schemas`). The six static
  schemas are `ObjectSchema` objects held by a `StaticSchemas` object.
  `GetSchemaWithCustomFields` dispatches on the record kind and keeps the
  custom field definitions available on that kind. In a loop it writes one
  property per definition into that static schema's own property table,
  because the source aliases it. It then returns the table wrapped as an
  array-of-object schema. The pure function `AddCustomFields` specifies
  the loop. Lemmas cover the resulting key set, last-writer-wins,
  untouched static properties and idempotence.

`wrappers.dfy` holds `Option` and `Result`. `seqs.dfy` holds the generic
`find`, `filter` and `map` over sequences.

Inputs standing for things outside the model:

- `kindOk` is the outcome of `getIdFromUrlOrId` and `checkRecordIdType`.
- `pageSize` is `constants.PAGE_SIZE`.
- `statusOptions` is `constants.STATUS_OPTIONS`.
- `initialCapital`, `normalize` (`stripAndLowercase`), `toEpochSeconds`
  (the date conversion) and `enrich` (the enrichment helpers) are
  function-valued parameters. Nothing is assumed about them.
- `constants.ts`, `helpers.ts` and `types.ts` are not part of this model.

Identifiers are numbers. A falsy id is 0.

A custom field definition carries two separate type fields. The action
code switches on `data_type` (formulas.ts:668). The schema code switches
on `type` (schemas.ts:892). The model keeps both: `dataType`, and
`typeTag`, which is `None` when a definition has no `type` member. Such a
definition gets the default String property.

## Model

| member | source | states |
|---|---|---|
| `Paging.Paginate` | formulas.ts:12-64 | A missing continuation, or page number 0, requests page 1; any other page number is requested as is. A continuation is emitted if and only if the count equals the page size, and then it names the requested page + 1. |
| `Paging.RequestFor` | formulas.ts:28-36 | Every listing except projects sends the requested page number and the page size, with computed custom-field values. Projects (line 378) send page size 200 and no page number, sort or flag. Only activity types use GET. Opportunities sort by `date_created`, descending, and are the only listing with a sort direction. Companies, people, leads and activity types sort by `name`. Each listing's endpoint is given. |
| `Paging.ProjectsRequestIgnoresPage` | formulas.ts:378 | The projects request is the same whatever page the continuation names. |
| `Paging.ProjectsFullPageNeverEnds` | formulas.ts:365-403 | Suppose the one projects request gets a full page on every call. Then each of the n calls sends that request and is handed a continuation, so the host never stops on its own. |
| `Paging.FullPrefix` | formulas.ts:60-64 | The number of leading full pages: every page before it is full, and the page at it (if any) is not. |
| `Paging.Drive` | formulas.ts:12-15 | A host re-invoking with the continuation until none is handed back makes at most one call per page the service answers, and at least one call. |
| `Paging.SyncPage` | formulas.ts:72-114 | The result is the enrichment of each returned record, in order and with the same count. The request is the one for the computed page. The continuation is present exactly when the page is full. |
| `Paging.SyncActivityTypes` | formulas.ts:206-250 | User entries (tagged "user") come first, then system entries (tagged "system"). The continuation test uses the combined count. |
| `Paging.DriveFrom` | formulas.ts:60-64 | A host re-invoking from page k >= 1 is handed page numbers k, k+1, ... in order (the requested pages for every listing except projects). It makes one call per leading full page plus one for the first short page, or one per page if all are full. |
| `Paging.DriveFromStart` | formulas.ts:12-15 | A traversal without a continuation is the traversal from page 1 and is handed page numbers 1, 2, 3, ... (the requested pages for every listing except projects). |
| `Seqs.FindFirst` | formulas.ts:442-444 | `find`: the index found satisfies the predicate and no earlier element does. None is returned exactly when no element satisfies it. |
| `Seqs.MapSeq` | formulas.ts:46-58 | `map`: the result has the input's length and holds the function applied to each element, in order (also the activity-type tagging at lines 224-232 and every error list of names). |
| `Seqs.Filter` | formulas.ts:642-644 | `filter`: every kept element is from the input and satisfies the predicate, and every satisfying input element is kept. |
| `Copper.FindLossReason` | formulas.ts:442-444 | First loss reason whose name equals the request exactly; none only if no name is equal. |
| `Copper.LossReasonSearchIsExact` | formulas.ts:443 | Example: the loss-reason match is case-sensitive: "price" does not find "Price". |
| `Copper.FindPipeline` | formulas.ts:490-492 | First pipeline whose id equals the opportunity's pipeline id. |
| `Copper.FindStage` | formulas.ts:495-497 | First stage whose lower-cased name equals the lower-cased request; none only if no stage matches. |
| `Copper.Lower` | formulas.ts:496 | Lower-casing keeps the length, maps each ASCII capital to its small letter and keeps every other character, so the result holds no ASCII capital. |
| `Copper.StageSearchIgnoresCase` | formulas.ts:496 | Requests that lower-case alike select the same stage. |
| `Copper.FindUser` | formulas.ts:558 | First user whose email equals the requested email exactly. |
| `Copper.ApplicableDefinitions` | formulas.ts:642-644 | Exactly the definitions whose `available_on` contains the record kind are kept. |
| `Copper.FindDefinition` | formulas.ts:647-651 | First definition whose normalised name equals the normalised field name. |
| `Copper.FindOption` | formulas.ts:681-685 | First dropdown option whose normalised name equals the normalised value. |
| `Copper.FindEntry` | formulas.ts:699-701 | First `custom_fields` entry whose definition id equals the target's id. |
| `Actions.WithComputedValues` | formulas.ts:462-465 | Every write body (also lines 511-512, 536, 574-577, 613-616, 705-708) is the payload's keys plus `custom_field_computed_values`, set to true, with every other entry kept. |
| `Actions.LossReasonApplies` | formulas.ts:438 | A loss reason is looked up only when the status is "Lost" and a reason is given; an empty reason counts as none. |
| `Actions.UpdateOpportunityStatus` | formulas.ts:415-472 | Fails if the kind check fails, or if the capitalised status is not an option (the error lists the options). If a non-empty reason is given with status "Lost" and no reason name equals it exactly, it fails listing all reason names. It succeeds exactly when none of these happen. The body is `status` plus the flag, plus `loss_reason_id` (the first exact match's id) exactly when a non-empty reason was given with "Lost". |
| `Actions.UpdateOpportunityStage` | formulas.ts:474-519 | Fails on a kind mismatch. Fails if no pipeline has the opportunity's pipeline id. Fails listing the pipeline's stage names if no stage matches up to case. Otherwise the body is only `pipeline_stage_id` (the first matching stage's id) and the flag. |
| `Actions.StageWriteIsOnlyAMatchingStage` | formulas.ts:505-514 | A successful stage write names a stage of the opportunity's own pipeline whose name matches the request up to case, and writes only that field and the flag. |
| `Actions.RenameOpportunity` | formulas.ts:521-542 | A blank name fails before the kind check. It succeeds exactly with a non-blank name and a passing kind check, and the body is only `name` and the flag. |
| `Actions.AssignRecord` | formulas.ts:544-584 | It succeeds exactly when the kind check passes and some user has that exact email. Otherwise the error lists all emails. The body is only `assignee_id` (the first such user's id) and the flag. |
| `Actions.RemoveTag` | formulas.ts:608 | The filtered list is no longer than the input; every remaining tag was in the input and differs from the removed tag. |
| `Actions.RemoveTagSpec` | formulas.ts:607-608 | Removal leaves no copy of the tag, keeps the count of every other tag, and leaves a list without the tag unchanged. |
| `Actions.RemoveTagKeepsOrder` | formulas.ts:608 | Removal distributes over concatenation, keeps any other single tag and drops the tag itself. Together these fix the order of the remaining tags. |
| `Actions.AddOrRemoveTag` | formulas.ts:586-622 | A kind mismatch fails with nothing changed. Removal sends the filtered list and leaves the fetched array as it was. Addition appends the tag to the fetched array itself, with no de-duplication, so the length grows by one, and sends that array. The custom fields are unchanged. |
| `Actions.TargetDefinition` | formulas.ts:641-659 | The target is a definition available on the record kind whose normalised name matches. If there is none, the error lists the applicable definitions' names. |
| `Actions.TargetIsFirstApplicableMatch` | formulas.ts:647-651 | No applicable definition before the target matches the field name. |
| `Actions.PrepareValue` | formulas.ts:667-695 | Date goes through the date conversion with no error. Dropdown succeeds exactly when the first matching option exists and has a non-zero id, and sends that id; otherwise the error lists the option names. Every other type passes the text through. |
| `Actions.PreparedEdit` | formulas.ts:641-695 | The edit goes ahead exactly with the target definition and its prepared value. It fails when the target search or the value preparation fails, and carries that step's error: the target search's if it failed, otherwise the preparation's. |
| `Actions.SetFieldValue` | formulas.ts:698-702 | Only the first entry for the definition gets the new value. The length and every other entry stay the same, and so does the first entry's position. |
| `Actions.UpdateCustomField` | formulas.ts:624-714 | A kind mismatch, a missing field or a bad dropdown value fails with the record unchanged. Otherwise the record's `custom_fields` becomes the in-place edit of the first matching entry. The body sends that array and the flag. The tags are unchanged. |
| `Schemas.PropertyFor` | schemas.ts:892-931 | The type-to-kind table, read both ways. Url gives String with a Url hint. Date gives Number with a Date hint. Checkbox gives Boolean. Float and Percentage give Number. Currency gives Number with a Currency hint. MultiSelect gives an array of String. Every other or missing type gives String. |
| `Schemas.AddCustomFields` | schemas.ts:885-935 | The loop's specification: every static name is kept, and every new name belongs to some definition. |
| `Schemas.AddCustomFieldsKeys` | schemas.ts:885-935 | The keys after the loop are the static keys plus the definitions' names. |
| `Schemas.LaterDefinitionWins` | schemas.ts:934 | A definition with no later same-named one decides that name's property. This covers overwriting a static property and overwriting an earlier definition. |
| `Schemas.UnnamedKeepsStatic` | schemas.ts:871 | A name no definition uses keeps its static property, or stays absent. |
| `Schemas.NamedIgnoresBase` | schemas.ts:934 | A name some definition uses gets the same property whatever table the loop starts from. |
| `Schemas.AddCustomFieldsIdempotent` | schemas.ts:871 | Redoing the loop on the already-extended table with the same definitions changes nothing. |
| `Schemas.SchemaKeys` | schemas.ts:880-882 | The assembled keys are the static keys plus the names of exactly those definitions available on the record kind. |
| `Schemas.CurrencyFieldOnOpportunitiesOnly` | schemas.ts:914-919 | Example: a Currency field available on opportunities becomes Number with a Currency hint in the opportunity table, and is absent from the company table. |
| `Schemas.ObjectSchema.Snapshot` | schemas.ts:937-943 | The returned object schema carries the table's properties and the static schema's `displayProperty`, `idProperty`, `featuredProperties` and `identity`. |
| `Schemas.StaticSchemas.constructor` | schemas.ts:93-586 | The six static schemas are distinct new objects. Each holds its own static property names and its own id property, display property, featured properties and identity. |
| `Schemas.ParseKindName` | schemas.ts:845-863 | Each kind's record-type string selects that kind again. |
| `Schemas.StaticSchemas.StaticSchemaFor` | schemas.ts:846-862 | Each kind selects its own static schema: the one of the six tables that carries that kind's declared identity (Person, Company, Opportunity, Project, Lead, ActivityType). |
| `Schemas.ParseRecordKind` | schemas.ts:845-868 | Exactly the strings person, company, opportunity, project, lead and activitytype name a kind with a static schema. Any other string names none. |
| `Schemas.ObjectSchema.AddProperties` | schemas.ts:885-935 | The loop writes into the schema object's own table: afterwards the table is `AddCustomFields` of its old contents with the definitions, in order. |
| `Schemas.StaticSchemas.GetSchemaWithCustomFields` | schemas.ts:832-951 | An unknown kind fails. Its frame is empty, so nothing is written. For a known kind, only that kind's own static table (the one carrying its identity) may change. It becomes `AddCustomFields` of its old contents with the applicable definitions, so the additions persist in it. The result wraps that table and the static schema's other settings as an array schema, with the kind's identity. |
| `Schemas.AssembleTwice` | schemas.ts:871-934 | For any known kind, two assemblies with the same definitions both succeed and return the same schema. |
| `Schemas.StaleFieldOutlivesDefinition` | schemas.ts:871-934 | The first assembly writes into the static table itself. So a second assembly with other definitions returns the static names, the names of its own applicable definitions, and still the names the first assembly added. |

## Left out

- HTTP calls, caching (`callApi`, `callApiBasicCached`, `getCopperUsers`) and the `Promise.all` fan-out: network I/O and concurrency. Their results are inputs.
- The getters `getOpportunity`, `getPerson` and `getCompany` (formulas.ts:256-360): identifier parsing, a fetch and enrichment, all in helpers whose source is not part of this model.
- Enrichment of listing results and of action responses (`enrich*Response`, `enrich*WithFetches`): a function-valued parameter in the listings, and not modelled after a write.
- Identifier parsing and the record-kind check: their outcome is `kindOk`. The endpoint string (`getRecordApiEndpoint`) is not modelled.
- `initialCapital`, `stripAndLowercase` and `humanReadableList`: their source is not part of this model, so the first two are parameters. Errors carry the list of names in place of the formatted message.
- Date conversion for custom fields (formulas.ts:672): JavaScript date parsing and floating point. It is the parameter `toEpochSeconds`, which never fails, matching the `try` that never fires.
- `Copper.Lower`: only ASCII letters are lower-cased. JavaScript's `toLowerCase` case mapping of other characters is not modelled.
- Autocomplete functions (formulas.ts:720-765): single map/filter expressions over fetched data.
- The static schema declarations (schemas.ts:8-827): each static table keeps its top-level property names only, with the shapes reduced to `StaticProperty`.
- `console.log` calls and the wording of error messages.
- `Actions.UpdateCustomField`: requires the record to hold an entry for the target definition. The source dereferences the search result (formulas.ts:699-702) and would throw a TypeError without one. A dropdown definition without an `options` array is modelled as one with no options.
- `Schemas.StaticSchemas.GetSchemaWithCustomFields`: the returned schema is a snapshot value of the table. In the source it shares the table object, so later assemblies would also change a schema returned earlier.
- `Paging.ProjectsFullPageNeverEnds`: the projects listing sends no page number (formulas.ts:378) but still hands back a continuation on a full page (formulas.ts:402-403). A full projects page is therefore fetched again and again without end. The model keeps this behaviour as the source has it and does not correct it.
- `Paging.SyncPage`: a page number of NaN or null, which JavaScript also treats as falsy, is not modelled. Page numbers are integers, and 0 is the only falsy one.
