/**
  The validation rules of the flow definition schema: what a configuration
  must satisfy before the provider expands it into an SDK request.

  ARN validation (`validateArn`) is not part of this model and is the
  parameter `isArn`; the list of AWS-managed request sources comes from the
  SDK's enum and is the parameter `requestSources`.
*/
module FlowDefinitionSchema {
  import opened Wrappers
  import opened Attributes
  import opened Sagemaker
  import opened Validation
  import opened Patterns
  import opened FlowDefinitionConvert

  // ------------------------------------------------------------ field validators

  predicate ValidFlowDefinitionName(s: string) {
    StringLenBetween(s, 1, 63) && MatchesNamePattern(s)
  }

  predicate ValidTaskKeyword(s: string) {
    StringLenBetween(s, 1, 30) && MatchesKeywordPattern(s)
  }

  /** The keyword set: MinItems 1, MaxItems 5, every element a valid keyword. */
  predicate ValidTaskKeywords(ks: set<string>) {
    1 <= |ks| <= 5 && forall k | k in ks :: ValidTaskKeyword(k)
  }

  predicate ValidS3OutputPath(s: string) {
    MatchesS3OutputPathPattern(s) && StringLenBetween(s, 1, 512)
  }

  predicate ValidTaskCount(v: int) { IntBetween(v, 1, 3) }
  predicate ValidTaskAvailabilityLifetime(v: int) { IntBetween(v, 1, 864000) }
  predicate ValidTaskTimeLimit(v: int) { IntBetween(v, 30, 28800) }
  predicate ValidTaskDescription(s: string) { StringLenBetween(s, 1, 255) }
  predicate ValidTaskTitle(s: string) { StringLenBetween(s, 1, 128) }
  predicate ValidActivationConditions(s: string) { StringLenBetween(s, 1, 10240) }
  predicate ValidRequestSource(s: string, requestSources: seq<string>) { StringInSlice(s, requestSources) }

  /** The value the schema gives `task_time_limit_in_seconds` when it is not configured. */
  const DefaultTaskTimeLimitInSeconds: Int64 := 3600

  // ---------------------------------------- what the validators accept, in words

  /**
    A flow definition name is accepted exactly when it has 1 to 63 characters,
    all of them lower-case letters, digits or hyphens, the first and the last
    not a hyphen.
  */
  lemma FlowDefinitionNameAccepts(s: string)
    ensures ValidFlowDefinitionName(s) <==> 1 <= |s| <= 63 && NameShape(s)
  {
    NamePatternIff(s);
    Utf8LenAscii(s);
  }

  /**
    A task keyword is accepted exactly when it has 1 to 30 characters and is
    words of ASCII letters and digits separated by single spaces.
  */
  lemma TaskKeywordAccepts(s: string)
    ensures ValidTaskKeyword(s) <==> 1 <= |s| <= 30 && KeywordShape(s)
  {
    KeywordPatternIff(s);
    Utf8LenAscii(s);
  }

  /**
    An S3 output path is accepted exactly when it starts with `https://` or
    `s3://`, then a character other than a slash, has no line feed after that
    character, and takes at most 512 bytes in UTF-8. The lower length bound
    never rejects anything the pattern accepts.
  */
  lemma S3OutputPathAccepts(s: string)
    ensures ValidS3OutputPath(s) <==> S3PathShape(s) && Utf8Len(s) <= 512
  {
    S3OutputPathPatternIff(s);
    Utf8LenBounds(s);
  }

  /** The default time limit is one the validator accepts. */
  lemma DefaultTaskTimeLimitValid()
    ensures ValidTaskTimeLimit(DefaultTaskTimeLimitInSeconds)
  {
  }

  // ---------------------------------------------------------- block validators
  //
  // The validators run on what the configuration sets: an attribute the
  // configuration leaves unset is an absent key here, and no validator runs on
  // it. The plugin SDK then hands expand a different map, `SdkView` below.

  /** MaxItems: 1 on an optional block. */
  predicate ValidOptionalBlockSize(l: Block) { |l| <= 1 }

  /** Required with MaxItems: 1: exactly one element. */
  predicate ValidRequiredBlockSize(l: Block) { |l| == 1 }

  predicate ValidOutputConfigAttrs(m: Attrs, isArn: string -> bool) {
    && HasStr(m, S3OutputPathKey)
    && ValidS3OutputPath(m[S3OutputPathKey].s)
    && (KmsKeyIdKey in m ==> HasStr(m, KmsKeyIdKey) && isArn(m[KmsKeyIdKey].s))
  }

  predicate ValidRequestSourceAttrs(m: Attrs, requestSources: seq<string>) {
    HasStr(m, RequestSourceKey) && ValidRequestSource(m[RequestSourceKey].s, requestSources)
  }

  predicate ValidHumanLoopConfigAttrs(m: Attrs, isArn: string -> bool) {
    && HumanLoopAttrsReady(m)
    && isArn(m[HumanTaskUiArnKey].s)
    && isArn(m[WorkteamArnKey].s)
    && ValidTaskCount(m[TaskCountKey].i)
    && ValidTaskDescription(m[TaskDescriptionKey].s)
    && ValidTaskTitle(m[TaskTitleKey].s)
    && (TaskKeywordsKey in m ==> HasSet(m, TaskKeywordsKey) && ValidTaskKeywords(m[TaskKeywordsKey].members))
    && (TaskAvailabilityLifetimeKey in m ==>
          HasInt(m, TaskAvailabilityLifetimeKey) && ValidTaskAvailabilityLifetime(m[TaskAvailabilityLifetimeKey].i))
    && (TaskTimeLimitKey in m ==> HasInt(m, TaskTimeLimitKey) && ValidTaskTimeLimit(m[TaskTimeLimitKey].i))
  }

  predicate ValidActivationConditionsAttrs(m: Attrs) {
    HasStr(m, ConditionsKey) && ValidActivationConditions(m[ConditionsKey].s)
  }

  predicate ValidActivationConfigAttrs(m: Attrs) {
    ConditionsConfigKey in m ==>
      && HasList(m, ConditionsConfigKey)
      && ValidOptionalBlockSize(m[ConditionsConfigKey].items)
      && (forall e | e in m[ConditionsConfigKey].items :: e.Some? && ValidActivationConditionsAttrs(e.value))
  }

  /** The configuration of one flow definition resource, as written. */
  datatype ResourceConfig = ResourceConfig(
    flowDefinitionName: string,
    roleArn: string,
    humanLoopConfig: Block,
    outputConfig: Block,
    humanLoopRequestSource: Block,
    humanLoopActivationConfig: Block)

  /** Every schema rule of the resource (tags aside). */
  predicate ValidResourceConfig(c: ResourceConfig, isArn: string -> bool, requestSources: seq<string>) {
    && ValidFlowDefinitionName(c.flowDefinitionName)
    && isArn(c.roleArn)
    && ValidRequiredBlockSize(c.humanLoopConfig)
    && (forall e | e in c.humanLoopConfig :: e.Some? && ValidHumanLoopConfigAttrs(e.value, isArn))
    && ValidRequiredBlockSize(c.outputConfig)
    && (forall e | e in c.outputConfig :: e.Some? && ValidOutputConfigAttrs(e.value, isArn))
    && ValidOptionalBlockSize(c.humanLoopRequestSource)
    && (forall e | e in c.humanLoopRequestSource :: e.Some? && ValidRequestSourceAttrs(e.value, requestSources))
    && ValidOptionalBlockSize(c.humanLoopActivationConfig)
    && (forall e | e in c.humanLoopActivationConfig :: e.Some? ==> ValidActivationConfigAttrs(e.value))
  }

  // ------------------------------------------------- the map expand receives

  /** The blocks of the schema that have optional attributes or none. */
  datatype BlockKind = OutputBlock | HumanLoopBlock | RequestSourceBlock | ActivationBlock

  /**
    What the plugin SDK puts under each optional attribute the configuration
    leaves unset: the schema default where there is one (3600 for the time
    limit), otherwise the zero value of the attribute's type.
  */
  function UnsetValues(kind: BlockKind): Attrs {
    match kind
    case OutputBlock => map[KmsKeyIdKey := Str("")]
    case HumanLoopBlock =>
      map[TaskAvailabilityLifetimeKey := Int(0),
          TaskKeywordsKey := StrSet({}),
          TaskTimeLimitKey := Int(DefaultTaskTimeLimitInSeconds)]
    case RequestSourceBlock => map[]
    case ActivationBlock => map[ConditionsConfigKey := List([])]
  }

  /**
    The map the plugin SDK hands expand for a configured block: every attribute
    of the block's schema is present, the configured ones with their value.
  */
  function SdkView(kind: BlockKind, m: Attrs): (r: Attrs)
    ensures r.Keys == m.Keys + UnsetValues(kind).Keys
    ensures forall k | k in m :: r[k] == m[k]
    ensures forall k | k in UnsetValues(kind) && k !in m :: r[k] == UnsetValues(kind)[k]
  {
    UnsetValues(kind) + m
  }

  /** Each non-nil element of a configured block as the plugin SDK passes it. */
  function SdkBlockView(kind: BlockKind, l: Block): (r: Block)
    ensures |r| == |l|
    ensures forall i | 0 <= i < |l| :: r[i].Some? == l[i].Some?
    ensures forall i | 0 <= i < |l| && l[i].Some? :: r[i].value == SdkView(kind, l[i].value)
  {
    if l == [] then []
    else [if l[0].Some? then Some(SdkView(kind, l[0].value)) else None] + SdkBlockView(kind, l[1..])
  }

  // ----------------------------------------------------------- validated structs

  /** A human loop config whose fields are all within the schema's rules. */
  predicate HumanLoopConfigInBounds(c: HumanLoopConfig, isArn: string -> bool) {
    && RequiredFieldsSet(c)
    && isArn(c.humanTaskUiArn.value)
    && isArn(c.workteamArn.value)
    && ValidTaskCount(c.taskCount.value)
    && ValidTaskDescription(c.taskDescription.value)
    && ValidTaskTitle(c.taskTitle.value)
    && (c.taskKeywords.Some? ==> ValidTaskKeywords(c.taskKeywords.value))
    && (c.taskAvailabilityLifetimeInSeconds.Some? ==>
          ValidTaskAvailabilityLifetime(c.taskAvailabilityLifetimeInSeconds.value))
    && (c.taskTimeLimitInSeconds.Some? ==> ValidTaskTimeLimit(c.taskTimeLimitInSeconds.value))
  }

  /**
    What expand, as written, makes of a human loop config block the schema
    accepts. The keyword set is copied exactly when it is configured (the
    SDK's empty set for an unset one is dropped), the time limit is the
    configured one or the default 3600, but an unset availability lifetime
    reaches the SDK as 0. So the struct is within bounds exactly when the
    lifetime is configured.
  */
  lemma ValidHumanLoopConfigExpands(m: Attrs, isArn: string -> bool)
    requires ValidHumanLoopConfigAttrs(m, isArn)
    ensures HumanLoopBlockReady([Some(SdkView(HumanLoopBlock, m))])
    ensures
      var c := ExpandHumanLoopConfig([Some(SdkView(HumanLoopBlock, m))]).value;
      && c.taskKeywords == (if TaskKeywordsKey in m then Some(m[TaskKeywordsKey].members) else None)
      && c.taskTimeLimitInSeconds ==
           Some(if TaskTimeLimitKey in m then m[TaskTimeLimitKey].i else DefaultTaskTimeLimitInSeconds)
      && c.taskAvailabilityLifetimeInSeconds ==
           Some(if TaskAvailabilityLifetimeKey in m then m[TaskAvailabilityLifetimeKey].i else 0)
      && (HumanLoopConfigInBounds(c, isArn) <==> TaskAvailabilityLifetimeKey in m)
  {
    var v := SdkView(HumanLoopBlock, m);
    ExpandHumanLoopConfigFields(v);
    assert m[TaskCountKey] == v[TaskCountKey];
  }

  /**
    A concrete configuration that shows it: all five required attributes set,
    the lifetime left unset. The schema accepts it, and expand asks SageMaker
    for a lifetime of 0 seconds, which the schema itself would refuse.
  */
  lemma UnsetLifetimeReachesSdkAsZero()
    ensures
      var m := map[HumanTaskUiArnKey := Str("ui"), TaskCountKey := Int(1), TaskDescriptionKey := Str("d"),
                   TaskTitleKey := Str("t"), WorkteamArnKey := Str("team")];
      var isArn := (s: string) => true;
      && ValidHumanLoopConfigAttrs(m, isArn)
      && HumanLoopBlockReady([Some(SdkView(HumanLoopBlock, m))])
      && ExpandHumanLoopConfig([Some(SdkView(HumanLoopBlock, m))]).value.taskAvailabilityLifetimeInSeconds == Some(0)
      && !ValidTaskAvailabilityLifetime(0)
  {
    var m := map[HumanTaskUiArnKey := Str("ui"), TaskCountKey := Int(1), TaskDescriptionKey := Str("d"),
                 TaskTitleKey := Str("t"), WorkteamArnKey := Str("team")];
    assert Utf8Len("d") == 1 && Utf8Len("t") == 1;
    ValidHumanLoopConfigExpands(m, (s: string) => true);
  }

  /**
    The corrected expand on a block the schema accepts: the struct is always
    within bounds, and an unset lifetime, like an unset keyword set, stays nil.
  */
  lemma IntendedHumanLoopConfigExpands(m: Attrs, isArn: string -> bool)
    requires ValidHumanLoopConfigAttrs(m, isArn)
    ensures HumanLoopBlockReady([Some(SdkView(HumanLoopBlock, m))])
    ensures
      var c := ExpandHumanLoopConfigIntended([Some(SdkView(HumanLoopBlock, m))]).value;
      && HumanLoopConfigInBounds(c, isArn)
      && c.taskAvailabilityLifetimeInSeconds ==
           (if TaskAvailabilityLifetimeKey in m then Some(m[TaskAvailabilityLifetimeKey].i) else None)
      && c.taskKeywords == (if TaskKeywordsKey in m then Some(m[TaskKeywordsKey].members) else None)
      && c.taskTimeLimitInSeconds ==
           Some(if TaskTimeLimitKey in m then m[TaskTimeLimitKey].i else DefaultTaskTimeLimitInSeconds)
  {
    ValidHumanLoopConfigExpands(m, isArn);
  }

  /**
    Flattening a struct with its required fields set gives a block the schema
    accepts exactly when the struct is within bounds.
  */
  lemma FlattenHumanLoopConfigValidIff(c: HumanLoopConfig, isArn: string -> bool)
    requires RequiredFieldsSet(c)
    ensures ValidHumanLoopConfigAttrs(FlattenHumanLoopConfig(Some(c))[0], isArn) <==> HumanLoopConfigInBounds(c, isArn)
  {
    FlattenHumanLoopConfigFields(c);
  }

  /**
    An output config block the schema accepts expands to an accepted path,
    and to a KMS key exactly when one is configured (the SDK's "" for an
    unset key is dropped).
  */
  lemma ValidOutputConfigExpands(m: Attrs, isArn: string -> bool)
    requires ValidOutputConfigAttrs(m, isArn)
    ensures OutputBlockReady([Some(SdkView(OutputBlock, m))])
    ensures
      var c := ExpandOutputConfig([Some(SdkView(OutputBlock, m))]).value;
      && c.s3OutputPath == Some(m[S3OutputPathKey].s)
      && ValidS3OutputPath(c.s3OutputPath.value)
      && c.kmsKeyId == (if KmsKeyIdKey in m && m[KmsKeyIdKey].s != "" then Some(m[KmsKeyIdKey].s) else None)
      && (c.kmsKeyId.Some? ==> isArn(c.kmsKeyId.value))
  {
    var v := SdkView(OutputBlock, m);
    assert v[S3OutputPathKey] == m[S3OutputPathKey];
  }

  /** An accepted request-source block, as the SDK passes it, expands to an accepted source. */
  lemma RequestSourceViewValid(l: Block, requestSources: seq<string>)
    requires ValidOptionalBlockSize(l)
    requires forall e | e in l :: e.Some? && ValidRequestSourceAttrs(e.value, requestSources)
    ensures RequestSourceBlockReady(SdkBlockView(RequestSourceBlock, l))
    ensures ExpandHumanLoopRequestSource(SdkBlockView(RequestSourceBlock, l)).Some? ==>
      ValidRequestSource(
        ExpandHumanLoopRequestSource(SdkBlockView(RequestSourceBlock, l)).value.awsManagedHumanLoopRequestSource.value,
        requestSources)
  {
    if |l| > 0 {
      assert l[0] in l;
    }
  }

  /** An accepted activation block, as the SDK passes it, meets expand's precondition. */
  lemma ActivationViewReady(l: Block)
    requires ValidOptionalBlockSize(l)
    requires forall e | e in l :: e.Some? ==> ValidActivationConfigAttrs(e.value)
    ensures ActivationBlockReady(SdkBlockView(ActivationBlock, l))
  {
    if |l| > 0 && l[0].Some? {
      var m := l[0].value;
      assert l[0] in l;
      if ConditionsConfigKey in m {
        var inner := m[ConditionsConfigKey].items;
        if |inner| > 0 {
          assert inner[0] in inner;
        }
      }
    }
  }

  /**
    For a configuration the whole schema accepts, every block as the plugin
    SDK passes it meets its expand function's precondition (no type assertion
    can panic); the two required blocks expand to non-nil structs; the S3 path
    and request source that reach the SDK are accepted values; and the human
    loop struct is within bounds under the corrected expand, and under expand
    as written exactly when the availability lifetime is configured.
  */
  lemma ValidResourceConfigExpands(c: ResourceConfig, isArn: string -> bool, requestSources: seq<string>)
    requires ValidResourceConfig(c, isArn, requestSources)
    ensures HumanLoopBlockReady(SdkBlockView(HumanLoopBlock, c.humanLoopConfig))
    ensures OutputBlockReady(SdkBlockView(OutputBlock, c.outputConfig))
    ensures RequestSourceBlockReady(SdkBlockView(RequestSourceBlock, c.humanLoopRequestSource))
    ensures ActivationBlockReady(SdkBlockView(ActivationBlock, c.humanLoopActivationConfig))
    ensures ExpandHumanLoopConfig(SdkBlockView(HumanLoopBlock, c.humanLoopConfig)).Some?
    ensures HumanLoopConfigInBounds(ExpandHumanLoopConfigIntended(SdkBlockView(HumanLoopBlock, c.humanLoopConfig)).value, isArn)
    ensures HumanLoopConfigInBounds(ExpandHumanLoopConfig(SdkBlockView(HumanLoopBlock, c.humanLoopConfig)).value, isArn)
            <==> TaskAvailabilityLifetimeKey in c.humanLoopConfig[0].value
    ensures ExpandOutputConfig(SdkBlockView(OutputBlock, c.outputConfig)).Some?
    ensures ValidS3OutputPath(ExpandOutputConfig(SdkBlockView(OutputBlock, c.outputConfig)).value.s3OutputPath.value)
    ensures ExpandHumanLoopRequestSource(SdkBlockView(RequestSourceBlock, c.humanLoopRequestSource)).Some? ==>
      ValidRequestSource(
        ExpandHumanLoopRequestSource(SdkBlockView(RequestSourceBlock, c.humanLoopRequestSource))
          .value.awsManagedHumanLoopRequestSource.value,
        requestSources)
  {
    var hl := c.humanLoopConfig[0].value;
    assert c.humanLoopConfig[0] in c.humanLoopConfig;
    ValidHumanLoopConfigExpands(hl, isArn);
    IntendedHumanLoopConfigExpands(hl, isArn);
    assert SdkBlockView(HumanLoopBlock, c.humanLoopConfig) == [Some(SdkView(HumanLoopBlock, hl))];
    var oc := c.outputConfig[0].value;
    assert c.outputConfig[0] in c.outputConfig;
    ValidOutputConfigExpands(oc, isArn);
    assert SdkBlockView(OutputBlock, c.outputConfig) == [Some(SdkView(OutputBlock, oc))];
    RequestSourceViewValid(c.humanLoopRequestSource, requestSources);
    ActivationViewReady(c.humanLoopActivationConfig);
  }
}
