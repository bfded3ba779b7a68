# Device Farm demo pipeline: device-pool handler and test action, in Dafny

This project models the two pieces of logic in the Device Farm demo repository
that go beyond declarative CDK wiring:

- **The device-pool custom-resource handler.** `lambda_handler` takes a
  CloudFormation custom-resource event. Depending on the event, it rejects it,
  issues one Device Farm call (`create_device_pool`, `update_device_pool` or
  `delete_device_pool`), and returns the physical resource id, with `Data.Arn`
  after a Create or Update.
  The module also covers its two helpers: `get_project_id`, the text after the
  last `:` of an ARN, and `get_top_device_pool_arn`, a first-match search over
  a paginated listing of device pools.
- **The Device Farm pipeline action.** `DeviceFarmAction` has fixed metadata:
  category test, provider `DeviceFarm`, owner `AWS`, version `1`, exactly one
  input artifact and no outputs. Its bind step adds one policy statement to the
  pipeline role, grants that role read access to the artifact bucket, and
  returns a twelve-key configuration.

Files:

- `wrappers.dfy` holds `Option`.
- `builtins.dfy` (module `Builtins`) holds the Python behaviour the handler
  depends on: JSON values, truthiness, `dict.get`, and `str.split`/`str.join`.
- `device_pool_resource.dfy` (module `DevicePoolResource`) holds the handler.
- `pipeline_action.dfy` (module `PipelineAction`) holds the action.

The boto3 client is replaced by `DeviceFarmClient`, a fake client:

- It records every call it receives in `calls`.
- It answers `create_device_pool` with the stubbed ARN `createdArn`.
- When `failing` is set, every call is recorded and then raises. Client
  exceptions propagate unchanged, as they do in the source.

The `list_device_pools` paginator is a function from a project ARN to the pages
it yields. The CDK role keeps the list of statements added to it, and the
bucket keeps the list of roles it granted read access to.

The handler is not idempotent. A repeated Create creates a second pool, and a
Delete of an absent pool lets the API's exception propagate. `bound` appends a
statement on every call, and any deduplication happens inside the CDK library.
See `LambdaHandler` and `BindTwice`.

## Model

| member | source | states |
|---|---|---|
| `Builtins.Truthy` | device-farm-resources-lambda/src/device_pool_resource.py:30-34 | a value is falsy exactly when it is None, False, 0, the empty string, the empty list or the empty dict |
| `Builtins.Get` | device-farm-resources-lambda/src/device_pool_resource.py:15-19 | `get(key, None)` is None exactly when the key is absent or holds None, and otherwise is the stored value |
| `Builtins.Split` | device-farm-resources-lambda/src/device_pool_resource.py:88 | `str.split` yields at least one piece, and one more piece than there are separators in the string |
| `Builtins.SplitPiecesSepFree` | device-farm-resources-lambda/src/device_pool_resource.py:88 | no piece of a split contains the separator |
| `Builtins.JoinSplit` | device-farm-resources-lambda/src/device_pool_resource.py:88 | joining the pieces of a split with the separator gives back the string |
| `Builtins.SplitJoin` | device-farm-resources-lambda/src/device_pool_resource.py:88 | splitting a join of separator-free pieces gives back the pieces |
| `Builtins.SplitAppendStep` | device-farm-resources-lambda/src/device_pool_resource.py:88 | when appending `t` to a string only extends the last piece of its split by `t`, appending `t` plus one non-separator character extends it by that text too |
| `Builtins.SplitAppendPiece` | device-farm-resources-lambda/src/device_pool_resource.py:88 | appending separator-free text to a string only extends the last piece of its split |
| `Builtins.SplitJoinStep` | device-farm-resources-lambda/src/device_pool_resource.py:88 | adding a separator-free piece to a list that splitting its join gives back keeps that round trip |
| `Builtins.LastPieceSuffix` | device-farm-resources-lambda/src/device_pool_resource.py:88-89 | the last piece of a split is a suffix of the string and holds no separator |
| `Builtins.LastPieceAfterSep` | device-farm-resources-lambda/src/device_pool_resource.py:88-89 | when the string has a separator, the last piece is preceded by one |
| `Builtins.LastPieceWhole` | device-farm-resources-lambda/src/device_pool_resource.py:88-89 | when the string has no separator, the last piece is the whole string |
| `Builtins.SplitLast` | device-farm-resources-lambda/src/device_pool_resource.py:88-89 | the last piece is a separator-free suffix, preceded by the separator when the string has one, and the whole string otherwise |
| `DevicePoolResource.ReadProperties` | device-farm-resources-lambda/src/device_pool_resource.py:14-19 | each of the five properties is the value stored under its key when the key is present, and None when it is absent; removing a key outside the known properties changes none of them |
| `DevicePoolResource.Validate` | device-farm-resources-lambda/src/device_pool_resource.py:20-37 | passes exactly when ProjectArn, Name and Rules are truthy and every key is known; otherwise reports the first falsy one of ProjectArn, Name, Rules in that order, and only then the set of unknown keys |
| `DevicePoolResource.Rejection` | device-farm-resources-lambda/src/device_pool_resource.py:15-37 | a Create or Update event passes validation exactly when its ProjectArn, Name and Rules are truthy and it has no property outside the six known ones |
| `DevicePoolResource.BuildCreateParams` | device-farm-resources-lambda/src/device_pool_resource.py:41-49 | the create request always has projectArn, name and rules; it has description and maxDevices exactly when those are not None; all values are passed unchanged |
| `DevicePoolResource.BuildUpdateParams` | device-farm-resources-lambda/src/device_pool_resource.py:54-64 | the update request has arn, name and rules; it has exactly one of maxDevices (when given) or clearMaxDevices=True (when absent); it has description exactly when that is not None |
| `DevicePoolResource.LambdaHandler` | device-farm-resources-lambda/src/device_pool_resource.py:12-74 | at most one API call; every rejection happens before any call. Delete skips validation, calls delete with the physical id, and returns it without Data. Create and Update are validated first; an unknown RequestType is refused only after validation. Create returns the created pool's ARN. Update sends and returns the incoming physical id. Data.Arn equals PhysicalResourceId |
| `DevicePoolResource.DeviceFarmClient.CreateDevicePool` | device-farm-resources-lambda/src/device_pool_resource.py:50-51 | the create call is recorded; the result is the stubbed pool ARN, or the client's error |
| `DevicePoolResource.DeviceFarmClient.UpdateDevicePool` | device-farm-resources-lambda/src/device_pool_resource.py:65 | the update call is recorded and succeeds unless the client fails |
| `DevicePoolResource.DeviceFarmClient.DeleteDevicePool` | device-farm-resources-lambda/src/device_pool_resource.py:27 | the delete call is recorded and succeeds unless the client fails |
| `DevicePoolResource.DeviceFarmClient.constructor` | device-farm-resources-lambda/src/device_pool_resource.py:92-93 | a fresh client has made no calls |
| `DevicePoolResource.GetTopDevicePoolArn` | device-farm-resources-lambda/src/device_pool_resource.py:77-84 | returns None exactly when no listed pool is named "Top Devices"; otherwise returns the ARN of the first such pool, scanning pages and then pools in order |
| `DevicePoolResource.AllPools` | device-farm-resources-lambda/src/device_pool_resource.py:79-80 | a pool is in the listing exactly when it is on one of the pages |
| `DevicePoolResource.AllPoolsAppend` | device-farm-resources-lambda/src/device_pool_resource.py:79-80 | the pools of two consecutive runs of pages are the pools of the first run followed by those of the second |
| `DevicePoolResource.AllPoolsAt` | device-farm-resources-lambda/src/device_pool_resource.py:79-80 | the listing's pools are those of the pages before page i, then page i, then those of the pages after it |
| `DevicePoolResource.ProjectId` | device-farm-resources-lambda/src/device_pool_resource.py:87-89 | the project id has no ':'; it is a suffix of the ARN; when the ARN has a ':', the ARN is some prefix + ":" + the id; otherwise the id is the whole ARN |
| `DevicePoolResource.ProjectIdOfSuffix` | device-farm-resources-lambda/src/device_pool_resource.py:87-89 | conversely, for prefix + ":" + id with no ':' in id, the project id is id |
| `DevicePoolResource.ProjectIdOfFixtureArn` | device-farm-resources-lambda/test_project_resource.py:10-11 | the fixture ARN `...:project:12345` has project id `12345` |
| `DevicePoolResource.TopDevicesOnSecondPage` | device-farm-resources-lambda/test_project_resource.py:34-48 | in the fixture listing, "Top Devices" is on the second page after a page holding "Flop Devices", and its ARN is found |
| `DevicePoolResource.CreatePipelineDevicePool` | infrastructure/src/pipeline.ts:24-35 | the stack's device pool (ProjectArn, Name, Rules, plus ServiceToken) produces exactly one create call with projectArn, name and rules, and reports the created pool's ARN |
| `PipelineAction.DeviceFarmActionProperties` | infrastructure/src/device-farm-action.ts:27-40 | the action has category Test, provider DeviceFarm, owner AWS and version 1; its artifact bounds admit exactly one input and zero outputs |
| `PipelineAction.DeviceFarmAction.constructor` | infrastructure/src/device-farm-action.ts:27-43 | the action keeps its props and its fixed base-action properties |
| `PipelineAction.Configuration` | infrastructure/src/device-farm-action.ts:59-74 | the configuration's keys are exactly the twelve provider keys |
| `PipelineAction.ReadConfiguration` | infrastructure/src/device-farm-action.ts:60-73 | a payload can be read back into props exactly when it has the twelve keys, each of the right kind |
| `PipelineAction.ConfigurationRoundTrip` | infrastructure/src/device-farm-action.ts:60-73 | every configuration value is its prop's unmodified value: reading the configuration back gives the props |
| `PipelineAction.ReadConfigurationRoundTrip` | infrastructure/src/device-farm-action.ts:60-73 | every readable payload is the configuration of the props it reads as, so the mapping has no slack |
| `PipelineAction.TwelveConfigurationKeys` | infrastructure/src/device-farm-action.ts:60-73 | the twelve configuration keys are distinct |
| `PipelineAction.Role.AddToPrincipalPolicy` | infrastructure/src/device-farm-action.ts:46 | the statement is appended to the role's policy |
| `PipelineAction.Bucket.GrantRead` | infrastructure/src/device-farm-action.ts:58 | the role is appended to the bucket's read grants |
| `PipelineAction.DeviceFarmAction.Bound` | infrastructure/src/device-farm-action.ts:45-75 | each bind appends one Allow statement (the six devicefarm actions on `*`) to the role and one read grant for that role to the bucket; the configuration depends only on the stored props |
| `PipelineAction.BindTwice` | infrastructure/src/device-farm-action.ts:45-58 | binding twice with the same role adds the statement twice and the read grant twice |

## Left out

- The boto3 client (`_get_device_farm_client`) and the real Device Farm API are not modelled. They are replaced by the fake `DeviceFarmClient` and a paginator function. The fixed region `us-west-2` and the `type='CURATED'` listing filter are therefore not represented.
- `ResourceProperties` present but not an object is not modelled. There, the `.get` at line 15 raises `AttributeError`, even on Delete. Properties are typed as a map.
- Floating-point JSON numbers are not modelled: `Value` has no float case, so `0.0` being falsy is not represented.
- `print` logging of the event and of the "not found" message is output only and is left out.
- The wording of exception messages is not modelled. An error carries the property name, the set of unknown keys, or the request type. The order in which `", ".join` lists unknown keys depends on Python set iteration, so it is not modelled.
- The handler's behaviour for a `RequestType` that is not a string is not modelled. There, the string concatenation at line 67 raises a `TypeError` instead. Requests are typed as strings.
- The response shape of `create_device_pool` is reduced to `devicePool.arn`. A response without that key, which would raise a `KeyError`, is not modelled.
- `infrastructure/src/pipeline.ts` is stack wiring. Its in-file `DeviceFarmAction` has the same configuration and artifact bounds as `device-farm-action.ts` and no grants, so `Configuration` and `DeviceFarmActionProperties` cover it.
- `infrastructure/src/device-farm-resources.ts` and `infrastructure/src/main.ts` are declarative Lambda, IAM and app composition. They are not part of this model.
- CDK internals are not modelled: validation of artifact bounds by the `Action` base class, deduplication in `addToPrincipalPolicy`, and what `grantRead` actually grants. The role and bucket are modelled only as lists of what was added.
- The `project_resource` module that `test_project_resource.py` tests is not part of this model. Only its fixtures are used, as examples for the shared helpers.
