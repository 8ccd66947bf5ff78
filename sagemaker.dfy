/**
  The SageMaker SDK request/response structs that the flow definition resource
  converts to and from. Every pointer field of the Go struct is an `Option`
  (`None` is a nil pointer).
*/
module Sagemaker {
  import opened Wrappers
  import opened Attributes

  /** sagemaker.FlowDefinitionOutputConfig */
  datatype OutputConfig = OutputConfig(
    kmsKeyId: Option<string>,
    s3OutputPath: Option<string>)

  /** sagemaker.HumanLoopRequestSource */
  datatype HumanLoopRequestSource = HumanLoopRequestSource(
    awsManagedHumanLoopRequestSource: Option<string>)

  /**
    sagemaker.HumanLoopConfig. The SDK holds the task keywords as a slice of
    strings; the resource only ever builds it from a set and reads it back into
    a set, so it is a set here.
  */
  datatype HumanLoopConfig = HumanLoopConfig(
    humanTaskUiArn: Option<string>,
    taskAvailabilityLifetimeInSeconds: Option<Int64>,
    taskCount: Option<Int64>,
    taskDescription: Option<string>,
    taskKeywords: Option<set<string>>,
    taskTimeLimitInSeconds: Option<Int64>,
    taskTitle: Option<string>,
    workteamArn: Option<string>)

  /**
    sagemaker.HumanLoopActivationConditionsConfig. `J` is the SDK's
    aws.JSONValue; a nil JSON value is one of its values.
  */
  datatype ActivationConditionsConfig<J> = ActivationConditionsConfig(
    humanLoopActivationConditions: J)

  /** sagemaker.HumanLoopActivationConfig */
  datatype HumanLoopActivationConfig<J> = HumanLoopActivationConfig(
    humanLoopActivationConditionsConfig: Option<ActivationConditionsConfig<J>>)
}
