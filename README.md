# SageMaker flow definition resource: conversions and schema rules

This project models the logic of the Terraform AWS provider's
`aws_sagemaker_flow_definition` resource (`aws/resource_aws_sagemaker_flow_definition.go`). The resource
declares the schema of a SageMaker human-review workflow (a flow definition).
It converts the configuration blocks to and from the SageMaker SDK's structs.
Two parts are modelled:

- **expand/flatten pairs** for `output_config`, `human_loop_request_source`,
  `human_loop_config` and `human_loop_activation_config` (with its inner
  `human_loop_activation_conditions_config`). A configuration block is a list
  of at most one attribute map (`Attributes.Block`, where `None` is a nil
  element). An SDK struct is a datatype whose pointer fields are `Option`s
  (module `Sagemaker`). Expand returns nil for an empty list or a nil first
  element and reads element 0 only. Flatten returns `[]` for a nil struct and
  exactly one map otherwise. The lemmas give the exact round trips in both
  directions, and say which values do not survive.
- **schema validators**: string-length bounds, integer ranges, the size of
  the keyword set, and the three regular expressions. Each expression is a
  scanner that follows its structure (module `Patterns`), and a lemma proves
  it equivalent to a description in plain words. The lemmas in
  `FlowDefinitionSchema` state what each validator accepts. The validators
  run on what a configuration sets. Expand, though, receives the plugin SDK's
  view of a block (`SdkView`), in which every unset optional attribute holds
  its zero value or its schema default. The lemmas show that this view of an
  accepted configuration meets every expand function's precondition. They
  also say which expanded values stay within the schema's bounds, and which
  one does not (see "## Findings").

Modules: `Wrappers` (Option), `Attributes` (Terraform's generic values),
`Sagemaker` (SDK structs), `FlowDefinitionConvert` (expand/flatten),
`Validation` (the plugin SDK validators the schema uses), `Patterns` (the
regular expressions), `FlowDefinitionSchema` (the schema rules).

Modelling choices:

- A Go type assertion without the comma-ok form (`m["task_title"].(string)`)
  panics when the key is missing or holds another type. The plugin SDK never
  passes such a map for a `Required` attribute, so these assertions are
  preconditions (`OutputBlockReady`, `HumanLoopBlockReady`, ...).
  Comma-ok assertions are modelled as branches.
- `aws.StringValue` and `aws.Int64Value` of a nil pointer are `""` and `0`
  (`Option.GetOr`).
- `int64(v)` only widens a Go `int`, so it keeps the value on every
  platform. `Value.Int` holds an `Int64`, the wider of the two.
- `validation.StringLenBetween` measures with Go's `len`, which counts UTF-8
  bytes. `Validation.Utf8Len` models that count. For the name and the
  keywords, which their patterns keep ASCII, it equals the character count.
- The regular expressions are Go RE2 expressions with the default flags. `$`
  matches only at the end of the text, `.` does not match a line feed, and
  `[^/]` does. The S3 path pattern `^(https|s3)://([^/])/?(.*)$` therefore
  accepts a scheme, then one character that is not a slash, then a rest with
  no line feed.

## Model

| member | source | states |
|---|---|---|
| FlowDefinitionConvert.ExpandOutputConfig | aws/resource_aws_sagemaker_flow_definition.go:381-397 | nil exactly for an empty list or a nil first element; otherwise the struct always carries an S3 path |
| FlowDefinitionConvert.FlattenOutputConfig | aws/resource_aws_sagemaker_flow_definition.go:399-410 | no map for a nil struct; otherwise one map holding exactly `kms_key_id` and `s3_output_path` |
| FlowDefinitionConvert.ExpandOutputConfigReadsFirst | aws/resource_aws_sagemaker_flow_definition.go:381-386 | elements after the first never change the result |
| FlowDefinitionConvert.OutputConfigBlockRoundTrip | aws/resource_aws_sagemaker_flow_definition.go:388-409 | block to struct to block returns the same `s3_output_path`, and the same `kms_key_id` when it is a string; a missing key comes back as `""` |
| FlowDefinitionConvert.OutputConfigRoundTrip | aws/resource_aws_sagemaker_flow_definition.go:381-410 | struct to block to struct is the identity when the path is set and the KMS key is nil or non-empty |
| FlowDefinitionConvert.OutputConfigEmptyKeyLost | aws/resource_aws_sagemaker_flow_definition.go:392-405 | an empty KMS key does not survive the round trip and comes back nil |
| FlowDefinitionConvert.OutputConfigNilPathLost | aws/resource_aws_sagemaker_flow_definition.go:399-410 | a nil S3 path does not survive the round trip: flatten writes `""` and expand reads back a set, empty path |
| FlowDefinitionConvert.FlattenHumanLoopConfigFields | aws/resource_aws_sagemaker_flow_definition.go:473-491 | the value flatten writes under each name: required fields as their value or `""`/`0` when nil, optional ones present exactly when non-nil |
| FlowDefinitionConvert.ExpandHumanLoopConfigIntended | aws/resource_aws_sagemaker_flow_definition.go:457-459 | corrected expand: never yields a lifetime of 0, because an unset lifetime stays nil |
| FlowDefinitionConvert.HumanLoopConfigIntendedRoundTrip | aws/resource_aws_sagemaker_flow_definition.go:438-494 | struct to block to struct through the corrected expand is the identity when the required fields are set, the keyword set is not empty and the lifetime is not 0 |
| FlowDefinitionConvert.ExpandHumanLoopRequestSource | aws/resource_aws_sagemaker_flow_definition.go:412-424 | nil exactly for an empty list or a nil first element; otherwise the source string is set |
| FlowDefinitionConvert.FlattenHumanLoopRequestSource | aws/resource_aws_sagemaker_flow_definition.go:426-436 | no map for a nil struct; otherwise one map holding only `aws_managed_human_loop_request_source` |
| FlowDefinitionConvert.ExpandHumanLoopRequestSourceReadsFirst | aws/resource_aws_sagemaker_flow_definition.go:412-417 | elements after the first never change the result |
| FlowDefinitionConvert.RequestSourceBlockRoundTrip | aws/resource_aws_sagemaker_flow_definition.go:412-436 | block to struct to block returns the same request-source string |
| FlowDefinitionConvert.RequestSourceRoundTrip | aws/resource_aws_sagemaker_flow_definition.go:412-436 | struct to block to struct returns the same struct |
| FlowDefinitionConvert.ExpandHumanLoopConfig | aws/resource_aws_sagemaker_flow_definition.go:438-466 | nil exactly for an empty list or a nil first element; otherwise the five required fields are set and the keyword set is never present-but-empty |
| FlowDefinitionConvert.FlattenHumanLoopConfig | aws/resource_aws_sagemaker_flow_definition.go:468-494 | one map for a non-nil struct; its keys are the five required names plus exactly the optional names whose field is non-nil |
| FlowDefinitionConvert.ExpandHumanLoopConfigReadsFirst | aws/resource_aws_sagemaker_flow_definition.go:438-443 | elements after the first never change the result |
| FlowDefinitionConvert.ExpandHumanLoopConfigFields | aws/resource_aws_sagemaker_flow_definition.go:445-463 | required attributes copied verbatim (task count unchanged as int64); each optional one set exactly when present with its type; keywords only when the set is non-empty |
| FlowDefinitionConvert.HumanLoopConfigBlockRoundTrip | aws/resource_aws_sagemaker_flow_definition.go:438-494 | block to struct to block returns a canonical map unchanged, so an absent optional stays absent |
| FlowDefinitionConvert.HumanLoopConfigRoundTrip | aws/resource_aws_sagemaker_flow_definition.go:438-494 | struct to block to struct is the identity when the required fields are set and the keyword set is not empty |
| FlowDefinitionConvert.ExpandActivationConditionsConfig | aws/resource_aws_sagemaker_flow_definition.go:345-362 | nil exactly for an empty list or a nil first element |
| FlowDefinitionConvert.FlattenActivationConditionsConfig | aws/resource_aws_sagemaker_flow_definition.go:364-379 | no map for a nil struct; otherwise one map holding only `human_loop_activation_conditions` |
| FlowDefinitionConvert.ExpandActivationConditionsConfigReadsFirst | aws/resource_aws_sagemaker_flow_definition.go:345-350 | elements after the first never change the result |
| FlowDefinitionConvert.ExpandHumanLoopActivationConfig | aws/resource_aws_sagemaker_flow_definition.go:319-331 | nil exactly for an empty list or a nil first element; the inner config is nil exactly when the inner list is |
| FlowDefinitionConvert.FlattenHumanLoopActivationConfig | aws/resource_aws_sagemaker_flow_definition.go:333-343 | no map for a nil struct; otherwise one map holding only the inner list |
| FlowDefinitionConvert.ExpandHumanLoopActivationConfigReadsFirst | aws/resource_aws_sagemaker_flow_definition.go:319-324 | elements after the first never change the result |
| FlowDefinitionConvert.ActivationConfigRoundTrip | aws/resource_aws_sagemaker_flow_definition.go:319-379 | struct to block to struct is the identity whenever the JSON codec decodes what it encoded |
| FlowDefinitionConvert.ActivationConfigBlockRoundTrip | aws/resource_aws_sagemaker_flow_definition.go:319-379 | block to struct to block returns the same conditions text whenever the codec reproduces it; an empty inner list stays empty |
| Validation.Utf8LenBounds | aws/resource_aws_sagemaker_flow_definition.go:178 | a string of n characters takes n to 4n bytes in UTF-8 |
| Validation.Utf8LenAscii | aws/resource_aws_sagemaker_flow_definition.go:40 | byte length equals character length exactly for ASCII strings |
| Patterns.NameGroupsIff | aws/resource_aws_sagemaker_flow_definition.go:41 | the scanner for `(-*[a-z0-9])*` accepts exactly name characters with no trailing hyphen |
| Patterns.NamePatternIff | aws/resource_aws_sagemaker_flow_definition.go:41 | `^[a-z0-9](-*[a-z0-9])*$` accepts exactly non-empty strings of `a-z`, `0-9` and `-` that start and end with a letter or digit |
| Patterns.KeywordScanIff | aws/resource_aws_sagemaker_flow_definition.go:110 | the keyword scanner, from any state, accepts exactly single-spaced alphanumeric text with the right ends |
| Patterns.KeywordPatternIff | aws/resource_aws_sagemaker_flow_definition.go:110 | `^[A-Za-z0-9]+( [A-Za-z0-9]+)*$` accepts exactly alphanumeric words separated by single spaces, with no space at either end |
| Patterns.DotStarIff | aws/resource_aws_sagemaker_flow_definition.go:177 | `.*$` matches exactly a rest with no line feed |
| Patterns.S3OutputPathPatternIff | aws/resource_aws_sagemaker_flow_definition.go:177 | the S3 path pattern accepts exactly `https://` or `s3://`, then a non-slash character, then no line feed |
| FlowDefinitionSchema.FlowDefinitionNameAccepts | aws/resource_aws_sagemaker_flow_definition.go:35-42 | a name is valid iff it has 1..63 characters and matches the name shape |
| FlowDefinitionSchema.TaskKeywordAccepts | aws/resource_aws_sagemaker_flow_definition.go:106-112 | a keyword is valid iff it has 1..30 characters and is single-spaced alphanumeric words |
| FlowDefinitionSchema.S3OutputPathAccepts | aws/resource_aws_sagemaker_flow_definition.go:172-180 | a path is valid iff it has the S3 path shape and at most 512 UTF-8 bytes; the lower bound of 1 is implied |
| FlowDefinitionSchema.DefaultTaskTimeLimitValid | aws/resource_aws_sagemaker_flow_definition.go:114-120 | the default of 3600 lies in the accepted range 30..28800 |
| FlowDefinitionSchema.FlattenHumanLoopConfigValidIff | aws/resource_aws_sagemaker_flow_definition.go:468-494 | flattening a struct gives a block the schema accepts iff the struct is within those bounds |
| FlowDefinitionSchema.SdkView | aws/resource_aws_sagemaker_flow_definition.go:44-183 | the map expand receives: every configured attribute keeps its value; each unset optional attribute is added with its zero value (`""`, `0`, an empty set or an empty list), and the time limit with its default of 3600 |
| FlowDefinitionSchema.SdkBlockView | aws/resource_aws_sagemaker_flow_definition.go:44-183 | a block as the SDK passes it: same length and nil elements, each non-nil element replaced by its `SdkView` |
| FlowDefinitionSchema.ValidHumanLoopConfigExpands | aws/resource_aws_sagemaker_flow_definition.go:438-466 | expand as written, on the SDK view of an accepted block: keywords exactly when configured, time limit as configured or 3600, an unset lifetime sent as 0; the struct is within bounds iff the lifetime is configured |
| FlowDefinitionSchema.UnsetLifetimeReachesSdkAsZero | aws/resource_aws_sagemaker_flow_definition.go:457-459 | a concrete accepted block with no lifetime for which expand sends a lifetime of 0, a value the schema refuses |
| FlowDefinitionSchema.IntendedHumanLoopConfigExpands | aws/resource_aws_sagemaker_flow_definition.go:83-126 | the corrected expand, on the SDK view of an accepted block, always gives a struct within bounds (task count 1..3, lifetime 1..864000 or nil, time limit 30..28800, 1..5 valid keywords or nil, description and title within their lengths) |
| FlowDefinitionSchema.ValidOutputConfigExpands | aws/resource_aws_sagemaker_flow_definition.go:381-397 | an accepted output block, as the SDK passes it, expands to the configured, accepted path, and to a KMS key exactly when a non-empty one is configured |
| FlowDefinitionSchema.RequestSourceViewValid | aws/resource_aws_sagemaker_flow_definition.go:136-151 | an accepted request-source block meets expand's precondition and expands to a listed source |
| FlowDefinitionSchema.ActivationViewReady | aws/resource_aws_sagemaker_flow_definition.go:44-69 | an accepted activation block, with its unset inner block as an empty list, meets expand's precondition |
| FlowDefinitionSchema.ValidResourceConfigExpands | aws/resource_aws_sagemaker_flow_definition.go:30-186 | for a configuration the whole schema accepts, the SDK's view of every block meets its expand precondition; the required blocks expand to non-nil structs; the path and request source are accepted values; the human loop struct is within bounds under the corrected expand, and under expand as written iff the lifetime is configured |

## Left out

- The Create, Read, Update and Delete functions (`aws/resource_aws_sagemaker_flow_definition.go:192-317`) are left out. They are SDK calls, tag listing and updating, and writes to Terraform's resource data. The importer and `CustomizeDiff` are left out too.
- The JSON codec (`protocol.DecodeJSONValue` and `EncodeJSONValue`) is not part of this model. It is a pair of parameters over an abstract JSON type, and its discarded errors are folded into its results.
- `validateArn` is not part of this model. It is the parameter `isArn`.
- The SDK's list of AWS-managed request sources is the parameter `requestSources`.
- `tagsSchema`, `tagsSchemaComputed` and `SetTagsDiff` (tags) are left out.
- `expandStringSet` and `flattenStringSet` are not part of this model. The keyword slice is modelled as a set, so its order is not modelled.
- Expand functions: a panicking type assertion is a precondition, not a modelled crash.
- Flatten returns `[]map[string]interface{}` holding `int64` values and a `*schema.Set`, while expand asserts `[]interface{}` and `.(int)` (:447, :457, :461). A literal expand of flatten's output would panic at :447. The plugin SDK converts through state: maps into list elements, `int64` into `int`. Here both sides are `Block`, with one `Int` value.
- The plugin SDK's code is not part of this model. It runs the validators only on configured values and fills in unset attributes before expand runs. `SdkView` models what it passes: zero values, and the `Default: 3600` for the time limit.
- In `ValidResourceConfig`, a required list with `MaxItems: 1` is taken to mean exactly one element, and an optional one at most one. Tags are not validated.
- internal/service/transfer/server_test.go holds acceptance tests against live AWS. It has no logic to model.

## Findings

| source | as written | input that shows it | evidently intended | confidence | as-written member | corrected member |
|---|---|---|---|---|---|---|
| aws/resource_aws_sagemaker_flow_definition.go:457-459 | `if v, ok := m["task_availability_lifetime_in_seconds"].(int); ok` always succeeds, because the plugin SDK passes an unset int as 0; an unset lifetime is sent to SageMaker as 0 | a `human_loop_config` block that sets only the five required attributes | copy the lifetime only when it is not 0, as :392 does for the KMS key and :453 for the keywords; 0 is outside the accepted 1..864000 | not executed | FlowDefinitionSchema.UnsetLifetimeReachesSdkAsZero | FlowDefinitionSchema.IntendedHumanLoopConfigExpands |
