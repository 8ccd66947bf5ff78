/**
  The expand/flatten pairs of the SageMaker flow definition resource: expand
  turns a configuration block (a list of at most one attribute map) into an
  SDK struct, flatten turns an SDK struct back into such a list.

  All of them follow one pattern: an empty list, or a list whose first element
  is nil, expands to nil, and only element 0 is ever read; a nil struct
  flattens to the empty list and any other struct to exactly one map.

  A Go type assertion without the comma-ok form (`m["task_title"].(string)`)
  panics when the key is absent or holds another type; the plugin SDK never
  passes such a map for a `Required` attribute, so those are preconditions
  here (`...BlockReady`). Assertions in the comma-ok form are branches.
*/
module FlowDefinitionConvert {
  import opened Wrappers
  import opened Attributes
  import opened Sagemaker

  // Attribute names of the resource schema.
  const KmsKeyIdKey := "kms_key_id"
  const S3OutputPathKey := "s3_output_path"
  const RequestSourceKey := "aws_managed_human_loop_request_source"
  const HumanTaskUiArnKey := "human_task_ui_arn"
  const TaskAvailabilityLifetimeKey := "task_availability_lifetime_in_seconds"
  const TaskCountKey := "task_count"
  const TaskDescriptionKey := "task_description"
  const TaskKeywordsKey := "task_keywords"
  const TaskTimeLimitKey := "task_time_limit_in_seconds"
  const TaskTitleKey := "task_title"
  const WorkteamArnKey := "workteam_arn"
  const ConditionsConfigKey := "human_loop_activation_conditions_config"
  const ConditionsKey := "human_loop_activation_conditions"

  /** Expand returns nil for this list: it is empty or its first element is nil. */
  predicate IsNilBlock(l: Block) {
    |l| == 0 || l[0].None?
  }

  // ---------------------------------------------------------------- output_config

  predicate OutputBlockReady(l: Block) {
    IsNilBlock(l) || HasStr(l[0].value, S3OutputPathKey)
  }

  /** The `kms_key_id` that expand copies: a non-empty string under that key. */
  function KmsKeyOf(m: Attrs): Option<string> {
    if HasStr(m, KmsKeyIdKey) && m[KmsKeyIdKey].s != "" then Some(m[KmsKeyIdKey].s) else None
  }

  function ExpandOutputConfig(l: Block): (r: Option<OutputConfig>)
    requires OutputBlockReady(l)
    ensures r.None? <==> IsNilBlock(l)
    ensures r.Some? ==> r.value.s3OutputPath.Some?
  {
    if IsNilBlock(l) then None
    else
      var m := l[0].value;
      Some(OutputConfig(kmsKeyId := KmsKeyOf(m), s3OutputPath := Some(m[S3OutputPathKey].s)))
  }

  function FlattenOutputConfig(c: Option<OutputConfig>): (r: seq<Attrs>)
    ensures |r| == (if c.None? then 0 else 1)
    ensures c.Some? ==> r[0].Keys == {KmsKeyIdKey, S3OutputPathKey}
  {
    if c.None? then []
    else
      [map[KmsKeyIdKey := Str(c.value.kmsKeyId.GetOr("")),
           S3OutputPathKey := Str(c.value.s3OutputPath.GetOr(""))]]
  }

  /** Expand reads element 0 only: whatever follows it changes nothing. */
  lemma ExpandOutputConfigReadsFirst(l: Block, rest: Block)
    requires OutputBlockReady(l) && |l| > 0
    ensures OutputBlockReady([l[0]] + rest)
    ensures ExpandOutputConfig(l) == ExpandOutputConfig([l[0]] + rest)
  {
  }

  /**
    Block to struct and back: the path comes back unchanged, and so does the
    key when it is a non-empty string; an empty or missing key comes back as ""
    (expand omits it, flatten writes "" for a nil key).
  */
  lemma {:induction false} OutputConfigBlockRoundTrip(m: Attrs)
    requires HasStr(m, S3OutputPathKey)
    ensures OutputBlockReady([Some(m)])
    ensures
      var r := FlattenOutputConfig(ExpandOutputConfig([Some(m)]));
      && |r| == 1
      && r[0][S3OutputPathKey] == m[S3OutputPathKey]
      && r[0][KmsKeyIdKey] == (if HasStr(m, KmsKeyIdKey) then m[KmsKeyIdKey] else Str(""))
  {
  }

  /** Struct to block and back is the identity unless the struct holds an empty key. */
  lemma OutputConfigRoundTrip(c: Option<OutputConfig>)
    requires c.Some? ==> c.value.s3OutputPath.Some? && c.value.kmsKeyId != Some("")
    ensures OutputBlockReady(AsBlock(FlattenOutputConfig(c)))
    ensures ExpandOutputConfig(AsBlock(FlattenOutputConfig(c))) == c
  {
  }

  /** An empty key does not survive: it comes back nil. */
  lemma OutputConfigEmptyKeyLost(c: OutputConfig)
    requires c.s3OutputPath.Some? && c.kmsKeyId == Some("")
    ensures OutputBlockReady(AsBlock(FlattenOutputConfig(Some(c))))
    ensures ExpandOutputConfig(AsBlock(FlattenOutputConfig(Some(c)))) == Some(c.(kmsKeyId := None))
  {
  }

  /** A nil path does not survive either: flatten writes "" and expand reads back a set, empty path. */
  lemma OutputConfigNilPathLost(c: OutputConfig)
    requires c.s3OutputPath.None? && c.kmsKeyId != Some("")
    ensures OutputBlockReady(AsBlock(FlattenOutputConfig(Some(c))))
    ensures ExpandOutputConfig(AsBlock(FlattenOutputConfig(Some(c)))) == Some(c.(s3OutputPath := Some("")))
  {
  }

  // ---------------------------------------------------- human_loop_request_source

  predicate RequestSourceBlockReady(l: Block) {
    IsNilBlock(l) || HasStr(l[0].value, RequestSourceKey)
  }

  function ExpandHumanLoopRequestSource(l: Block): (r: Option<HumanLoopRequestSource>)
    requires RequestSourceBlockReady(l)
    ensures r.None? <==> IsNilBlock(l)
    ensures r.Some? ==> r.value.awsManagedHumanLoopRequestSource.Some?
  {
    if IsNilBlock(l) then None
    else Some(HumanLoopRequestSource(Some(l[0].value[RequestSourceKey].s)))
  }

  function FlattenHumanLoopRequestSource(c: Option<HumanLoopRequestSource>): (r: seq<Attrs>)
    ensures |r| == (if c.None? then 0 else 1)
    ensures c.Some? ==> r[0].Keys == {RequestSourceKey}
  {
    if c.None? then []
    else [map[RequestSourceKey := Str(c.value.awsManagedHumanLoopRequestSource.GetOr(""))]]
  }

  lemma ExpandHumanLoopRequestSourceReadsFirst(l: Block, rest: Block)
    requires RequestSourceBlockReady(l) && |l| > 0
    ensures RequestSourceBlockReady([l[0]] + rest)
    ensures ExpandHumanLoopRequestSource(l) == ExpandHumanLoopRequestSource([l[0]] + rest)
  {
  }

  /** Block to struct and back gives the same request-source string. */
  lemma RequestSourceBlockRoundTrip(m: Attrs)
    requires HasStr(m, RequestSourceKey)
    ensures RequestSourceBlockReady([Some(m)])
    ensures FlattenHumanLoopRequestSource(ExpandHumanLoopRequestSource([Some(m)]))
            == [map[RequestSourceKey := m[RequestSourceKey]]]
  {
  }

  /** Struct to block and back gives the same struct. */
  lemma RequestSourceRoundTrip(c: Option<HumanLoopRequestSource>)
    requires c.Some? ==> c.value.awsManagedHumanLoopRequestSource.Some?
    ensures RequestSourceBlockReady(AsBlock(FlattenHumanLoopRequestSource(c)))
    ensures ExpandHumanLoopRequestSource(AsBlock(FlattenHumanLoopRequestSource(c))) == c
  {
  }

  // ------------------------------------------------------------ human_loop_config

  /** The five required attributes are present with their schema types. */
  predicate HumanLoopAttrsReady(m: Attrs) {
    && HasStr(m, HumanTaskUiArnKey)
    && HasInt(m, TaskCountKey)
    && HasStr(m, TaskDescriptionKey)
    && HasStr(m, TaskTitleKey)
    && HasStr(m, WorkteamArnKey)
  }

  predicate HumanLoopBlockReady(l: Block) {
    IsNilBlock(l) || HumanLoopAttrsReady(l[0].value)
  }

  /** `m[key].(int)` in the comma-ok form, widened to int64. */
  function OptionalInt(m: Attrs, key: string): Option<Int64> {
    if HasInt(m, key) then Some(m[key].i) else None
  }

  /** The keywords expand copies: a set under that key with at least one element. */
  function KeywordsOf(m: Attrs): Option<set<string>> {
    if HasSet(m, TaskKeywordsKey) && |m[TaskKeywordsKey].members| > 0
    then Some(m[TaskKeywordsKey].members) else None
  }

  function ExpandHumanLoopConfig(l: Block): (r: Option<HumanLoopConfig>)
    requires HumanLoopBlockReady(l)
    ensures r.None? <==> IsNilBlock(l)
    ensures r.Some? ==> RequiredFieldsSet(r.value)
    ensures r.Some? ==> r.value.taskKeywords != Some({})
  {
    if IsNilBlock(l) then None
    else
      var m := l[0].value;
      Some(HumanLoopConfig(
        humanTaskUiArn := Some(m[HumanTaskUiArnKey].s),
        taskAvailabilityLifetimeInSeconds := OptionalInt(m, TaskAvailabilityLifetimeKey),
        taskCount := Some(m[TaskCountKey].i),
        taskDescription := Some(m[TaskDescriptionKey].s),
        taskKeywords := KeywordsOf(m),
        taskTimeLimitInSeconds := OptionalInt(m, TaskTimeLimitKey),
        taskTitle := Some(m[TaskTitleKey].s),
        workteamArn := Some(m[WorkteamArnKey].s)))
  }

  /**
    Expand as evidently intended: like the optional keyword set and KMS key,
    the availability lifetime is copied only when it is not the zero value the
    plugin SDK gives an unset attribute. Every other field is as in
    `ExpandHumanLoopConfig`.
  */
  function ExpandHumanLoopConfigIntended(l: Block): (r: Option<HumanLoopConfig>)
    requires HumanLoopBlockReady(l)
    ensures r.None? <==> IsNilBlock(l)
    ensures r.Some? ==> r.value.taskAvailabilityLifetimeInSeconds != Some(0)
  {
    match ExpandHumanLoopConfig(l)
    case None => None
    case Some(c) => Some(c.(taskAvailabilityLifetimeInSeconds := NonZeroInt(l[0].value, TaskAvailabilityLifetimeKey)))
  }

  /** `m[key].(int)` in the comma-ok form, kept only when it is not 0. */
  function NonZeroInt(m: Attrs, key: string): Option<Int64> {
    if HasInt(m, key) && m[key].i != 0 then Some(m[key].i) else None
  }

  /** Every field the schema marks Required is non-nil in the struct. */
  predicate RequiredFieldsSet(c: HumanLoopConfig) {
    && c.humanTaskUiArn.Some?
    && c.taskCount.Some?
    && c.taskDescription.Some?
    && c.taskTitle.Some?
    && c.workteamArn.Some?
  }

  /** The attribute names flatten always writes for a non-nil struct. */
  const HumanLoopRequiredKeys: set<string> :=
    {HumanTaskUiArnKey, TaskCountKey, TaskDescriptionKey, TaskTitleKey, WorkteamArnKey}

  /** The optional attribute names whose struct field is non-nil. */
  function PresentOptionalKeys(c: HumanLoopConfig): set<string> {
    (if c.taskKeywords.Some? then {TaskKeywordsKey} else {})
    + (if c.taskAvailabilityLifetimeInSeconds.Some? then {TaskAvailabilityLifetimeKey} else {})
    + (if c.taskTimeLimitInSeconds.Some? then {TaskTimeLimitKey} else {})
  }

  function FlattenHumanLoopConfig(c: Option<HumanLoopConfig>): (r: seq<Attrs>)
    ensures |r| == (if c.None? then 0 else 1)
    ensures c.Some? ==> r[0].Keys == HumanLoopRequiredKeys + PresentOptionalKeys(c.value)
  {
    if c.None? then []
    else
      var v := c.value;
      var m := map[
        HumanTaskUiArnKey := Str(v.humanTaskUiArn.GetOr("")),
        TaskCountKey := Int(v.taskCount.GetOr(0)),
        TaskDescriptionKey := Str(v.taskDescription.GetOr("")),
        TaskTitleKey := Str(v.taskTitle.GetOr("")),
        WorkteamArnKey := Str(v.workteamArn.GetOr(""))];
      var m := if v.taskKeywords.Some? then m[TaskKeywordsKey := StrSet(v.taskKeywords.value)] else m;
      var m := if v.taskAvailabilityLifetimeInSeconds.Some?
               then m[TaskAvailabilityLifetimeKey := Int(v.taskAvailabilityLifetimeInSeconds.value)] else m;
      var m := if v.taskTimeLimitInSeconds.Some?
               then m[TaskTimeLimitKey := Int(v.taskTimeLimitInSeconds.value)] else m;
      [m]
  }

  /** What flatten writes under each attribute name (a nil required field becomes its zero value). */
  lemma FlattenHumanLoopConfigFields(c: HumanLoopConfig)
    ensures
      var m := FlattenHumanLoopConfig(Some(c))[0];
      && m[HumanTaskUiArnKey] == Str(c.humanTaskUiArn.GetOr(""))
      && m[TaskCountKey] == Int(c.taskCount.GetOr(0))
      && m[TaskDescriptionKey] == Str(c.taskDescription.GetOr(""))
      && m[TaskTitleKey] == Str(c.taskTitle.GetOr(""))
      && m[WorkteamArnKey] == Str(c.workteamArn.GetOr(""))
      && (TaskKeywordsKey in m <==> c.taskKeywords.Some?)
      && (c.taskKeywords.Some? ==> m[TaskKeywordsKey] == StrSet(c.taskKeywords.value))
      && (TaskAvailabilityLifetimeKey in m <==> c.taskAvailabilityLifetimeInSeconds.Some?)
      && (c.taskAvailabilityLifetimeInSeconds.Some? ==>
            m[TaskAvailabilityLifetimeKey] == Int(c.taskAvailabilityLifetimeInSeconds.value))
      && (TaskTimeLimitKey in m <==> c.taskTimeLimitInSeconds.Some?)
      && (c.taskTimeLimitInSeconds.Some? ==> m[TaskTimeLimitKey] == Int(c.taskTimeLimitInSeconds.value))
  {
  }

  lemma ExpandHumanLoopConfigReadsFirst(l: Block, rest: Block)
    requires HumanLoopBlockReady(l) && |l| > 0
    ensures HumanLoopBlockReady([l[0]] + rest)
    ensures ExpandHumanLoopConfig(l) == ExpandHumanLoopConfig([l[0]] + rest)
  {
  }

  /**
    Expand copies the five required attributes verbatim (the task count keeps
    its value when widened to int64) and each optional one exactly when it is
    present with its schema type (the keyword set only when non-empty).
  */
  lemma ExpandHumanLoopConfigFields(m: Attrs)
    requires HumanLoopAttrsReady(m)
    ensures HumanLoopBlockReady([Some(m)])
    ensures
      var c := ExpandHumanLoopConfig([Some(m)]).value;
      && Str(c.humanTaskUiArn.value) == m[HumanTaskUiArnKey]
      && Int(c.taskCount.value) == m[TaskCountKey]
      && Str(c.taskDescription.value) == m[TaskDescriptionKey]
      && Str(c.taskTitle.value) == m[TaskTitleKey]
      && Str(c.workteamArn.value) == m[WorkteamArnKey]
      && (c.taskKeywords.Some? <==> HasSet(m, TaskKeywordsKey) && m[TaskKeywordsKey].members != {})
      && (c.taskKeywords.Some? ==> StrSet(c.taskKeywords.value) == m[TaskKeywordsKey])
      && (c.taskAvailabilityLifetimeInSeconds.Some? <==> HasInt(m, TaskAvailabilityLifetimeKey))
      && (c.taskAvailabilityLifetimeInSeconds.Some? ==>
            Int(c.taskAvailabilityLifetimeInSeconds.value) == m[TaskAvailabilityLifetimeKey])
      && (c.taskTimeLimitInSeconds.Some? <==> HasInt(m, TaskTimeLimitKey))
      && (c.taskTimeLimitInSeconds.Some? ==> Int(c.taskTimeLimitInSeconds.value) == m[TaskTimeLimitKey])
  {
  }

  /**
    Attribute maps that survive expand-then-flatten unchanged: only schema
    attributes, each with its schema type, and a keyword set, if any, that is
    non-empty.
  */
  predicate CanonicalHumanLoopAttrs(m: Attrs) {
    && HumanLoopAttrsReady(m)
    && m.Keys <= HumanLoopRequiredKeys + {TaskKeywordsKey, TaskAvailabilityLifetimeKey, TaskTimeLimitKey}
    && (TaskKeywordsKey in m ==> HasSet(m, TaskKeywordsKey) && m[TaskKeywordsKey].members != {})
    && (TaskAvailabilityLifetimeKey in m ==> HasInt(m, TaskAvailabilityLifetimeKey))
    && (TaskTimeLimitKey in m ==> HasInt(m, TaskTimeLimitKey))
  }

  /** Block to struct and back: a canonical map comes back unchanged, so an absent optional stays absent. */
  lemma HumanLoopConfigBlockRoundTrip(m: Attrs)
    requires CanonicalHumanLoopAttrs(m)
    ensures HumanLoopBlockReady([Some(m)])
    ensures FlattenHumanLoopConfig(ExpandHumanLoopConfig([Some(m)])) == [m]
  {
    var r := FlattenHumanLoopConfig(ExpandHumanLoopConfig([Some(m)]));
    ExpandHumanLoopConfigFields(m);
    assert r[0].Keys == m.Keys;
    forall k | k in m
      ensures r[0][k] == m[k]
    {
      if k in HumanLoopRequiredKeys {
      } else if k == TaskKeywordsKey {
      } else if k == TaskAvailabilityLifetimeKey {
      } else {
        assert k == TaskTimeLimitKey;
      }
    }
    assert r[0] == m;
    assert |r| == 1;
  }

  /** Struct to block and back is the identity on structs expand can produce. */
  lemma HumanLoopConfigRoundTrip(c: Option<HumanLoopConfig>)
    requires c.Some? ==> RequiredFieldsSet(c.value) && c.value.taskKeywords != Some({})
    ensures HumanLoopBlockReady(AsBlock(FlattenHumanLoopConfig(c)))
    ensures ExpandHumanLoopConfig(AsBlock(FlattenHumanLoopConfig(c))) == c
  {
  }

  /**
    The corrected expand keeps the struct-to-block round trip on every struct
    whose lifetime is not 0 (0 is outside the lifetime's accepted range).
  */
  lemma HumanLoopConfigIntendedRoundTrip(c: Option<HumanLoopConfig>)
    requires c.Some? ==>
      RequiredFieldsSet(c.value) && c.value.taskKeywords != Some({})
      && c.value.taskAvailabilityLifetimeInSeconds != Some(0)
    ensures HumanLoopBlockReady(AsBlock(FlattenHumanLoopConfig(c)))
    ensures ExpandHumanLoopConfigIntended(AsBlock(FlattenHumanLoopConfig(c))) == c
  {
  }

  // ------------------------------------------------- human_loop_activation_config
  //
  // The activation conditions are a JSON document. The SDK's codec
  // (protocol.DecodeJSONValue / EncodeJSONValue) is not part of this model: it
  // is a pair of parameters, `decode` and `encode`, over an abstract JSON value
  // type `J`. The resource discards the codec's errors, so each is a total
  // function here: whatever value (nil included) the codec returns on failure
  // is one of its results.

  predicate ConditionsBlockReady(l: Block) {
    IsNilBlock(l) || HasStr(l[0].value, ConditionsKey)
  }

  function ExpandActivationConditionsConfig<J>(l: Block, decode: string -> J): (r: Option<ActivationConditionsConfig<J>>)
    requires ConditionsBlockReady(l)
    ensures r.None? <==> IsNilBlock(l)
  {
    if IsNilBlock(l) then None
    else Some(ActivationConditionsConfig(decode(l[0].value[ConditionsKey].s)))
  }

  function FlattenActivationConditionsConfig<J>(c: Option<ActivationConditionsConfig<J>>, encode: J -> string): (r: seq<Attrs>)
    ensures |r| == (if c.None? then 0 else 1)
    ensures c.Some? ==> r[0].Keys == {ConditionsKey}
  {
    if c.None? then []
    else [map[ConditionsKey := Str(encode(c.value.humanLoopActivationConditions))]]
  }

  predicate ActivationBlockReady(l: Block) {
    IsNilBlock(l) || (HasList(l[0].value, ConditionsConfigKey) && ConditionsBlockReady(l[0].value[ConditionsConfigKey].items))
  }

  function ExpandHumanLoopActivationConfig<J>(l: Block, decode: string -> J): (r: Option<HumanLoopActivationConfig<J>>)
    requires ActivationBlockReady(l)
    ensures r.None? <==> IsNilBlock(l)
    ensures r.Some? ==>
      (r.value.humanLoopActivationConditionsConfig.None? <==> IsNilBlock(l[0].value[ConditionsConfigKey].items))
  {
    if IsNilBlock(l) then None
    else
      Some(HumanLoopActivationConfig(
        ExpandActivationConditionsConfig(l[0].value[ConditionsConfigKey].items, decode)))
  }

  function FlattenHumanLoopActivationConfig<J>(c: Option<HumanLoopActivationConfig<J>>, encode: J -> string): (r: seq<Attrs>)
    ensures |r| == (if c.None? then 0 else 1)
    ensures c.Some? ==> r[0].Keys == {ConditionsConfigKey} && r[0][ConditionsConfigKey].List?
  {
    if c.None? then []
    else
      var inner := FlattenActivationConditionsConfig(c.value.humanLoopActivationConditionsConfig, encode);
      [map[ConditionsConfigKey := List(AsBlock(inner))]]
  }

  lemma ExpandHumanLoopActivationConfigReadsFirst<J>(l: Block, rest: Block, decode: string -> J)
    requires ActivationBlockReady(l) && |l| > 0
    ensures ActivationBlockReady([l[0]] + rest)
    ensures ExpandHumanLoopActivationConfig(l, decode) == ExpandHumanLoopActivationConfig([l[0]] + rest, decode)
  {
  }

  lemma ExpandActivationConditionsConfigReadsFirst<J>(l: Block, rest: Block, decode: string -> J)
    requires ConditionsBlockReady(l) && |l| > 0
    ensures ConditionsBlockReady([l[0]] + rest)
    ensures ExpandActivationConditionsConfig(l, decode) == ExpandActivationConditionsConfig([l[0]] + rest, decode)
  {
  }

  /**
    Struct to block and back is the identity whenever the JSON codec gives
    back the conditions it encoded.
  */
  lemma ActivationConfigRoundTrip<J>(c: Option<HumanLoopActivationConfig<J>>, decode: string -> J, encode: J -> string)
    requires c.Some? && c.value.humanLoopActivationConditionsConfig.Some? ==>
      var j := c.value.humanLoopActivationConditionsConfig.value.humanLoopActivationConditions;
      decode(encode(j)) == j
    ensures ActivationBlockReady(AsBlock(FlattenHumanLoopActivationConfig(c, encode)))
    ensures ExpandHumanLoopActivationConfig(AsBlock(FlattenHumanLoopActivationConfig(c, encode)), decode) == c
  {
  }

  /**
    Block to struct and back: the conditions text comes back unchanged whenever
    the JSON codec reproduces it, and an empty inner list stays empty.
  */
  lemma ActivationConfigBlockRoundTrip<J>(m: Attrs, decode: string -> J, encode: J -> string)
    requires HasList(m, ConditionsConfigKey) && ConditionsBlockReady(m[ConditionsConfigKey].items)
    requires
      var l := m[ConditionsConfigKey].items;
      !IsNilBlock(l) ==> encode(decode(l[0].value[ConditionsKey].s)) == l[0].value[ConditionsKey].s
    ensures ActivationBlockReady([Some(m)])
    ensures
      var l := m[ConditionsConfigKey].items;
      var r := FlattenHumanLoopActivationConfig(ExpandHumanLoopActivationConfig([Some(m)], decode), encode);
      && |r| == 1
      && r[0][ConditionsConfigKey] ==
           List(if IsNilBlock(l) then [] else [Some(map[ConditionsKey := l[0].value[ConditionsKey]])])
  {
  }
}
