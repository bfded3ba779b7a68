/**
 * The Device Farm test action of the CodePipeline
 * (infrastructure/src/device-farm-action.ts): fixed action metadata and
 * artifact bounds set by the constructor, and a bind step that grants the
 * pipeline role what Device Farm needs and returns the action configuration.
 *
 * The CDK role and bucket are modelled only by what the bind step does to
 * them: the role keeps the list of policy statements added to it, the bucket
 * the list of roles it granted read access to.
 */
module PipelineAction {
  import opened Wrappers

  /** A pipeline artifact, known by its name. */
  datatype Artifact = Artifact(artifactName: string)

  /** `DeviceFarmActionProps`: every field is required. */
  datatype Props = Props(
    actionName: string,
    inputs: seq<Artifact>,
    recordAppPerformanceData: bool,
    appType: string,
    projectId: string,
    app: string,
    radioBluetoothEnabled: bool,
    recordVideo: bool,
    radioWifiEnabled: bool,
    radioNfcEnabled: bool,
    radioGpsEnabled: bool,
    test: string,
    devicePoolArn: string,
    testType: string)

  /** A configuration value handed to the Device Farm provider. */
  datatype ConfigValue = BoolValue(b: bool) | StringValue(s: string)

  datatype ActionCategory = Source | Build | Test | Approval | Deploy | Invoke

  datatype ArtifactBounds = ArtifactBounds(minInputs: nat, maxInputs: nat, minOutputs: nat, maxOutputs: nat)

  /** What the action passes to the base `Action` constructor. */
  datatype ActionProperties = ActionProperties(
    actionName: string,
    inputs: seq<Artifact>,
    category: ActionCategory,
    provider: string,
    owner: string,
    artifactBounds: ArtifactBounds,
    version: string)

  datatype Effect = Allow | Deny

  datatype PolicyStatement = PolicyStatement(effect: Effect, actions: seq<string>, resources: seq<string>)

  /** The result of `bound`. */
  datatype ActionConfig = ActionConfig(configuration: map<string, ConfigValue>)

  /** The scope and stage `bound` receives and does not use. */
  datatype Construct = Construct(path: string)
  datatype Stage = Stage(stageName: string)

  /** The twelve configuration keys the Device Farm provider reads. */
  const ConfigurationKeys: set<string> := {
    "RecordAppPerformanceData", "AppType", "ProjectId", "App", "RadioBluetoothEnabled",
    "RecordVideo", "RadioWifiEnabled", "RadioNfcEnabled", "RadioGpsEnabled", "Test",
    "DevicePoolArn", "TestType"}

  /** The Device Farm actions the pipeline role is granted on every resource. */
  const DeviceFarmPolicy: PolicyStatement := PolicyStatement(
    Allow,
    ["devicefarm:CreateUpload", "devicefarm:GetRun", "devicefarm:GetUpload",
     "devicefarm:ListDevicePools", "devicefarm:ListProjects", "devicefarm:ScheduleRun"],
    ["*"])

  /** The artifact counts an action with these bounds accepts. */
  predicate WithinBounds(bounds: ArtifactBounds, inputs: nat, outputs: nat) {
    && bounds.minInputs <= inputs <= bounds.maxInputs
    && bounds.minOutputs <= outputs <= bounds.maxOutputs
  }

  /**
   * The base-action properties the constructor passes on: the name and
   * inputs of the props with the fixed test category, provider, owner,
   * version and artifact bounds.
   */
  function DeviceFarmActionProperties(props: Props): (a: ActionProperties)
    ensures a.actionName == props.actionName && a.inputs == props.inputs
    ensures a.category == Test && a.provider == "DeviceFarm" && a.owner == "AWS" && a.version == "1"
    ensures forall inputs: nat, outputs: nat ::
      WithinBounds(a.artifactBounds, inputs, outputs) <==> inputs == 1 && outputs == 0
  {
    ActionProperties(props.actionName, props.inputs, Test, "DeviceFarm", "AWS",
                     ArtifactBounds(1, 1, 0, 0), "1")
  }

  /** The `configuration` object `bound` returns. */
  function Configuration(props: Props): (c: map<string, ConfigValue>)
    ensures c.Keys == ConfigurationKeys
  {
    map[
      "RecordAppPerformanceData" := BoolValue(props.recordAppPerformanceData),
      "AppType" := StringValue(props.appType),
      "ProjectId" := StringValue(props.projectId),
      "App" := StringValue(props.app),
      "RadioBluetoothEnabled" := BoolValue(props.radioBluetoothEnabled),
      "RecordVideo" := BoolValue(props.recordVideo),
      "RadioWifiEnabled" := BoolValue(props.radioWifiEnabled),
      "RadioNfcEnabled" := BoolValue(props.radioNfcEnabled),
      "RadioGpsEnabled" := BoolValue(props.radioGpsEnabled),
      "Test" := StringValue(props.test),
      "DevicePoolArn" := StringValue(props.devicePoolArn),
      "TestType" := StringValue(props.testType)]
  }

  /** Whether `c` is a configuration with exactly the twelve keys, each of its kind. */
  predicate WellFormed(c: map<string, ConfigValue>) {
    && c.Keys == ConfigurationKeys
    && c["RecordAppPerformanceData"].BoolValue?
    && c["AppType"].StringValue?
    && c["ProjectId"].StringValue?
    && c["App"].StringValue?
    && c["RadioBluetoothEnabled"].BoolValue?
    && c["RecordVideo"].BoolValue?
    && c["RadioWifiEnabled"].BoolValue?
    && c["RadioNfcEnabled"].BoolValue?
    && c["RadioGpsEnabled"].BoolValue?
    && c["Test"].StringValue?
    && c["DevicePoolArn"].StringValue?
    && c["TestType"].StringValue?
  }

  /**
   * The inverse of `Configuration`, used to state that every value passes
   * through unmodified: reads the props back out of a payload, or `None`
   * when it lacks one of the twelve keys or has a value of the wrong kind.
   */
  function ReadConfiguration(actionName: string, inputs: seq<Artifact>, c: map<string, ConfigValue>)
    : (p: Option<Props>)
    ensures p.Some? <==> WellFormed(c)
    ensures p.Some? ==> p.value.actionName == actionName && p.value.inputs == inputs
  {
    if !WellFormed(c) then None
    else Some(Props(
      actionName, inputs,
      c["RecordAppPerformanceData"].b, c["AppType"].s, c["ProjectId"].s, c["App"].s,
      c["RadioBluetoothEnabled"].b, c["RecordVideo"].b, c["RadioWifiEnabled"].b,
      c["RadioNfcEnabled"].b, c["RadioGpsEnabled"].b, c["Test"].s,
      c["DevicePoolArn"].s, c["TestType"].s))
  }

  /** Every prop reaches the provider unmodified: the configuration reads back as the props. */
  lemma ConfigurationRoundTrip(props: Props)
    ensures ReadConfiguration(props.actionName, props.inputs, Configuration(props)) == Some(props)
  {
  }

  /** And nothing else: a readable payload is exactly the configuration of what it reads as. */
  lemma ReadConfigurationRoundTrip(actionName: string, inputs: seq<Artifact>, c: map<string, ConfigValue>)
    requires WellFormed(c)
    ensures Configuration(ReadConfiguration(actionName, inputs, c).value) == c
  {
  }

  /** The configuration has twelve distinct keys. */
  lemma TwelveConfigurationKeys()
    ensures |ConfigurationKeys| == 12
  {
  }

  /** An IAM role, recording the statements added to its principal policy. */
  class Role {
    var statements: seq<PolicyStatement>

    constructor ()
      ensures statements == []
    {
      statements := [];
    }

    /** `addToPrincipalPolicy`. */
    method AddToPrincipalPolicy(statement: PolicyStatement)
      modifies this
      ensures statements == old(statements) + [statement]
    {
      statements := statements + [statement];
    }
  }

  /** The artifact bucket, recording the roles it granted read access to. */
  class Bucket {
    var readGrants: seq<Role>

    constructor ()
      ensures readGrants == []
    {
      readGrants := [];
    }

    /** `grantRead`. */
    method GrantRead(grantee: Role)
      modifies this
      ensures readGrants == old(readGrants) + [grantee]
    {
      readGrants := readGrants + [grantee];
    }
  }

  /** `ActionBindOptions`: the role the action runs under and the artifact bucket. */
  datatype BindOptions = BindOptions(role: Role, bucket: Bucket)

  class DeviceFarmAction {
    const props: Props
    const actionProperties: ActionProperties

    constructor (props: Props)
      ensures this.props == props
      ensures actionProperties == DeviceFarmActionProperties(props)
    {
      this.props := props;
      actionProperties := DeviceFarmActionProperties(props);
    }

    /**
     * `bound`: adds the Device Farm policy statement to the role, grants the
     * role read access to the artifact bucket, and returns the configuration,
     * which depends on the props alone.
     */
    method Bound(scope: Construct, stage: Stage, options: BindOptions) returns (config: ActionConfig)
      modifies options.role, options.bucket
      ensures options.role.statements == old(options.role.statements) + [DeviceFarmPolicy]
      ensures options.bucket.readGrants == old(options.bucket.readGrants) + [options.role]
      ensures config == ActionConfig(Configuration(props))
    {
      options.role.AddToPrincipalPolicy(DeviceFarmPolicy);
      options.bucket.GrantRead(options.role);
      config := ActionConfig(Configuration(props));
    }
  }

  /**
   * Binding the action twice with the same role adds the policy statement
   * twice and grants read access twice: the bind step itself does not
   * deduplicate.
   */
  method BindTwice(props: Props) returns (statements: seq<PolicyStatement>, readGrants: nat)
    ensures statements == [DeviceFarmPolicy, DeviceFarmPolicy]
    ensures readGrants == 2
  {
    var action := new DeviceFarmAction(props);
    var role := new Role();
    var bucket := new Bucket();
    var options := BindOptions(role, bucket);
    var first := action.Bound(Construct("Pipeline"), Stage("Test"), options);
    var second := action.Bound(Construct("Pipeline"), Stage("Test"), options);
    statements := role.statements;
    readGrants := |bucket.readGrants|;
  }
}
