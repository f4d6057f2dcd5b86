# Scalr Terraform provider: decision logic of five resources

This project models, in Dafny, the logic the Scalr Terraform provider wraps
around its remote API calls. Every remote call (the go-scalr client) is a
parameter: an answer (`Response`: found, not found, or failed with a cause), or
a callback from the options sent to the answer. The Terraform schema accessors
(`d.Get`, `d.GetOk`, `d.HasChange`) become plain values and booleans.

Modules:

- `Wrappers`: `Option` and `Result`, the read answer `Response`, and the delete
  answer `DeleteStatus`. `DeleteOutcome` is the rule that every Delete in the
  core shares: a resource that is already gone counts as deleted.
  `ReadOutcome` is the rule the role and service-account Reads share: only a
  failed read is an error.
- `StringOrder`: character-wise lexicographic order on strings and an insertion
  sort. It stands for Go's `sort.Strings`, and is proved sorted, a permutation,
  and canonical: two lists sort equal exactly when they hold the same multiset.
- `ProviderParameters`: the custom-provider parameter reconciliation of
  `scalr_provider_configuration`.
  - `syncArguments` builds a desired map and a current map, then splits them
    into creates, updates and deletes.
  - `changeParameters` orders the tasks as deletes, then updates, then creates,
    and folds the results, stopping at the first error. It is modelled as a
    sequential fold.
  - `createParameters` is modelled.
  - The read-side merge keeps sensitive values from prior state.
  - The remote parameter set is modelled as a map from key to parameter, and
    each call's effect on it as a function. A run in which every call
    succeeds leaves exactly the desired keys, each with the desired value,
    sensitivity and description.
  - Both the diff and the fold are loops, proved against specification
    functions. Their properties are proved as lemmas, including the test
    scenario that goes from the first Kubernetes configuration to the second.
- `ProviderConfiguration`: the rest of that resource.
  - The AWS credential rules.
  - The environments mapping: `["*"]` means shared.
  - The CustomizeDiff check that refuses a change of provider type.
- `Webhook`: the event allow-list and its order-preserving parser, the
  workspace/environment scope resolution, and the webhook resource as a class.
- `Role`: permission parsing, the order-insensitive comparison that Read uses,
  the Update gate, and the role resource as a class.
- `ServiceAccount`: the status allow-list, partial create and update options,
  the shaping of `created_by`, and the resource as a class.
- `AccessPolicy`: the priority-ordered choice of subject and scope, and the
  data source's Read.

Each resource's Terraform state is a class whose fields its methods update.
`State()` takes a snapshot of the fields, and a value-level function
(`AfterRead`) states what a read leaves in state. Lemmas are proved about
those functions.

The model keeps the code's literal comparison at
`resource_scalr_provider_configuration.go:624`. The API returns sensitive
values empty, so a sensitive parameter with a non-empty desired value produces
an update on every run. A second sync right after a successful one is
therefore not always empty: the sync is idempotent only for configurations
without such parameters (`SensitiveValueAlwaysUpdates` shows the update that
recurs, `InSyncMeansNoWork` the case with no work).

## Model

| member | source | states |
|---|---|---|
| Wrappers.DeleteOutcome | scalr/resource_scalr_role.go:192-207 | Delete fails exactly when the API refuses for a reason other than not-found, and then reports that cause |
| Wrappers.ReadOutcome | scalr/resource_scalr_role.go:113-125 | a Read of a role or a service account fails exactly when the API answers with an error other than not-found, and reports that error's text |
| StringOrder.Sort | scalr/resource_scalr_role.go:141 | the result is sorted and holds the same multiset of strings as the input |
| StringOrder.SortCanonical | scalr/resource_scalr_role.go:134-158 | two lists sort to the same list if and only if they hold the same strings with the same multiplicities |
| StringOrder.SortSorted | scalr/resource_scalr_role.go:150 | sorting a sorted list returns it unchanged |
| StringOrder.SortedUnique | scalr/resource_scalr_role.go:150 | two sorted lists with the same multiset are equal |
| ProviderParameters.DesiredOptions | scalr/resource_scalr_provider_configuration.go:580-597 | the desired map is keyed by argument name, each entry carrying its own name as key |
| ProviderParameters.DesiredOptionsLastWins | scalr/resource_scalr_provider_configuration.go:580-597 | the desired keys are exactly the argument names, and a later argument with a name overrides every earlier one |
| ProviderParameters.CurrentParameters | scalr/resource_scalr_provider_configuration.go:613-616 | the current map is keyed by each remote parameter's key |
| ProviderParameters.CurrentParametersLastWins | scalr/resource_scalr_provider_configuration.go:613-616 | the current keys are exactly the remote keys, and the last parameter with a key is the one kept |
| ProviderParameters.BuildDesired | scalr/resource_scalr_provider_configuration.go:580-597 | the loop builds exactly the desired map |
| ProviderParameters.BuildCurrent | scalr/resource_scalr_provider_configuration.go:613-616 | the loop builds exactly the current map |
| ProviderParameters.Diff | scalr/resource_scalr_provider_configuration.go:618-640 | the two loops produce the create, update and delete lists of the specification, in map iteration order |
| ProviderParameters.DiffDesired | scalr/resource_scalr_provider_configuration.go:618-632 | the loop over the desired map yields exactly the specified creates and updates |
| ProviderParameters.DiffCurrent | scalr/resource_scalr_provider_configuration.go:634-640 | the loop over the current map yields exactly the specified deletes |
| ProviderParameters.DesiredLast | scalr/resource_scalr_provider_configuration.go:580-597 | the last argument with a name is that name's desired entry |
| ProviderParameters.CurrentLast | scalr/resource_scalr_provider_configuration.go:613-616 | the last remote parameter with a key is that key's current entry |
| ProviderParameters.CreatesExactly | scalr/resource_scalr_provider_configuration.go:620-623 | a desired argument is created if and only if its key is not current, or the current parameter is sensitive and the desired one is not; creates are distinct by key |
| ProviderParameters.UpdatesExactly | scalr/resource_scalr_provider_configuration.go:624-631 | an update is emitted if and only if the parameter is kept and its value, sensitivity or description differs; it carries the current ID and the desired attributes |
| ProviderParameters.UpdatesDistinct | scalr/resource_scalr_provider_configuration.go:624-631 | no parameter ID is updated twice |
| ProviderParameters.DeletesExactly | scalr/resource_scalr_provider_configuration.go:634-640 | a current parameter is deleted by ID if and only if its key is no longer desired or it goes from sensitive to plain; deletes are distinct |
| ProviderParameters.CreateExcludesUpdate | scalr/resource_scalr_provider_configuration.go:620-632 | a key that is created gets no update of its current parameter |
| ProviderParameters.SensitiveToPlainIsReplaced | scalr/resource_scalr_provider_configuration.go:620-640 | a sensitive-to-plain change yields one delete plus one create and never an update |
| ProviderParameters.SensitiveValueAlwaysUpdates | scalr/resource_scalr_provider_configuration.go:624-631 | a sensitive parameter read back with an empty value and desired with a non-empty one is always updated |
| ProviderParameters.InSyncMeansNoWork | scalr/resource_scalr_provider_configuration.go:618-640 | a desired set that matches the current set exactly produces no create, update or delete |
| ProviderParameters.TaskList | scalr/resource_scalr_provider_configuration.go:711-727 | the task list holds every requested operation, with deletes before updates before creates |
| ProviderParameters.TaskListMembers | scalr/resource_scalr_provider_configuration.go:711-727 | the task list is the deletes, then the updates, then the creates, each in request order |
| ProviderParameters.BuildTasks | scalr/resource_scalr_provider_configuration.go:711-727 | the three loops build exactly that task list |
| ProviderParameters.ExecuteStops | scalr/resource_scalr_provider_configuration.go:773-776 | tasks after the first failing one change nothing in the result |
| ProviderParameters.ChangeParameters | scalr/resource_scalr_provider_configuration.go:681-787 | the fold over the task list returns the sequential execution of the deletes, updates and creates; an empty list returns empty results and no error |
| ProviderParameters.ExecuteNoError | scalr/resource_scalr_provider_configuration.go:773-784 | the fold reports no error if and only if every task succeeds, and then every task was issued |
| ProviderParameters.ExecuteFirstError | scalr/resource_scalr_provider_configuration.go:773-776 | in the sequential fold, the reported error is that of the first failing task in list order, and the fold issues nothing after it (the concurrent workers may; see Left out) |
| ProviderParameters.ExecuteConcat | scalr/resource_scalr_provider_configuration.go:773-784 | running two task lists in a row equals running their concatenation |
| ProviderParameters.ExecuteDeletes | scalr/resource_scalr_provider_configuration.go:777-783 | when all deletes succeed, the deleted list is their IDs in order, with no error and nothing created or updated |
| ProviderParameters.ExecuteUpdates | scalr/resource_scalr_provider_configuration.go:777-783 | when all updates succeed, the updated list holds, for each update in order, the parameter its update call answered; every update is issued, with no error and nothing created or deleted |
| ProviderParameters.ExecuteCreates | scalr/resource_scalr_provider_configuration.go:777-783 | when all creates succeed, the created list holds, for each create in order, the parameter its create call answered; every create is issued, with no error and nothing updated or deleted |
| ProviderParameters.ExecuteAllSucceed | scalr/resource_scalr_provider_configuration.go:773-784 | when every task succeeds there is no error, the whole task list is issued, the deleted IDs are the requested ones in order, and the created and updated lists hold the parameters each call answered, in request order |
| ProviderParameters.IssuedIsPrefix | scalr/resource_scalr_provider_configuration.go:773-784 | the sequential fold issues a prefix of the task list |
| ProviderParameters.ApplyDeletes | scalr/resource_scalr_provider_configuration.go:759-761 | a delete batch that succeeds removes exactly the parameters whose IDs it names |
| ProviderParameters.ApplyUpdates | scalr/resource_scalr_provider_configuration.go:756-758 | an update batch with distinct IDs that succeeds keeps every key and ID, gives each targeted parameter the attributes sent, and leaves the others alone |
| ProviderParameters.ApplyCreates | scalr/resource_scalr_provider_configuration.go:753-755 | a create batch with distinct keys that succeeds adds each key with the attributes sent and leaves every other key alone |
| ProviderParameters.CompleteKey | scalr/resource_scalr_provider_configuration.go:618-640 | after the three batches a desired key is present with the desired value, sensitivity and description |
| ProviderParameters.ExtraKeyGone | scalr/resource_scalr_provider_configuration.go:634-640 | after the three batches a key the configuration does not hold is absent |
| ProviderParameters.Completeness | scalr/resource_scalr_provider_configuration.go:618-660 | once every call succeeds, the remote holds exactly the desired keys, each with the desired value, sensitivity and description |
| ProviderParameters.DeleteBatchIssuesDeletes | scalr/resource_scalr_provider_configuration.go:641-651 | the first batch issues only deletes |
| ProviderParameters.SecondBatchIssuesNoDeletes | scalr/resource_scalr_provider_configuration.go:652-660 | the second batch issues no delete |
| ProviderParameters.SyncArguments | scalr/resource_scalr_provider_configuration.go:578-662 | a failed read or a changed provider name returns an error and issues no call; otherwise the delete batch runs first and, if it fails, the second batch never starts; no delete follows a non-delete |
| ProviderParameters.CreateParameters | scalr/resource_scalr_provider_configuration.go:790-803 | creates every option in order and stops at the first error; on success one parameter is created per option |
| ProviderParameters.CustomCreateOptions | scalr/resource_scalr_provider_configuration.go:302-323 | one create option per configured argument, in order, keyed by the argument's name |
| ProviderParameters.CreateCustomParameters | scalr/resource_scalr_provider_configuration.go:334-343 | no arguments means no call and no error; otherwise the arguments' options are created in order |
| ProviderParameters.StateValues | scalr/resource_scalr_provider_configuration.go:437-443 | the prior-state values are keyed by argument name, the last argument with a name winning |
| ProviderParameters.ReadArgument | scalr/resource_scalr_provider_configuration.go:445-459 | a plain parameter shows its remote value; a sensitive one shows the prior-state value when there is one and the remote value otherwise |
| ProviderParameters.MergeReadArguments | scalr/resource_scalr_provider_configuration.go:437-459 | the loop reads back one argument per remote parameter, in order |
| ProviderParameters.ReadBackShowsConfiguration | scalr/resource_scalr_provider_configuration.go:437-459 | when the remote parameters hold the configuration with secrets hidden, the read-back arguments equal the configured ones |
| ProviderParameters.ReadBackShowsArgument | scalr/resource_scalr_provider_configuration.go:437-459 | the same for one argument |
| ProviderParameters.KubernetesDesiredOptions | scalr/resource_scalr_provider_configuration_test.go:479-503 | the updated configuration yields the expected desired map |
| ProviderParameters.KubernetesScenario | scalr/resource_scalr_provider_configuration_test.go:452-503 | going from the first configuration to the second updates `config_path`, deletes `client_certificate`, creates `username` and leaves `host` alone |
| ProviderParameters.KubernetesCreates | scalr/resource_scalr_provider_configuration_test.go:496-499 | the only create is `username` |
| ProviderParameters.KubernetesUpdates | scalr/resource_scalr_provider_configuration_test.go:486-491 | the only update is `config_path`, becoming sensitive with the new description |
| ProviderParameters.KubernetesDeletes | scalr/resource_scalr_provider_configuration_test.go:466-470 | the only delete is `client_certificate` |
| ProviderConfiguration.AwsCredentialOptions | scalr/resource_scalr_provider_configuration.go:244-279 | accepted if and only if the credentials are well formed; keys given alone, a missing trusted entity type, role ARN or external ID, an unknown type and missing keys each give their own error whenever the checks before them pass; accepted options carry the configured fields |
| ProviderConfiguration.ReadAws | scalr/resource_scalr_provider_configuration.go:376-400 | read-back copies the remote fields, keeps the secret key from state, and shows the role fields only when a trusted entity type is set |
| ProviderConfiguration.AwsReadBack | scalr/resource_scalr_provider_configuration.go:376-400 | well-formed credentials that Create accepts read back unchanged |
| ProviderConfiguration.WrapEnvironments | scalr/resource_scalr_provider_configuration.go:226-237 | the loop wraps each environment ID, in order |
| ProviderConfiguration.CreateSharing | scalr/resource_scalr_provider_configuration.go:226-237 | `["*"]` shares with all environments, an empty list sends nothing, any other list is sent as the environments |
| ProviderConfiguration.UpdateSharing | scalr/resource_scalr_provider_configuration.go:487-503 | `["*"]` shares and clears the list; anything else unshares and sends the list |
| ProviderConfiguration.ReadEnvironments | scalr/resource_scalr_provider_configuration.go:365-374 | a shared configuration reads back as `["*"]`, otherwise as its environment IDs |
| ProviderConfiguration.EnvironmentsRoundTrip | scalr/resource_scalr_provider_configuration.go:365-374 | the environments sent by Create or Update read back as configured |
| ProviderConfiguration.CheckProviderChange | scalr/resource_scalr_provider_configuration.go:23-37 | refuses the plan, with "Provider type can't be changed.", if and only if more than one provider block changed |
| ProviderConfiguration.CountChangedMoreThanOne | scalr/resource_scalr_provider_configuration.go:25-35 | over distinct blocks the counter exceeds one if and only if two different blocks changed, and is zero if and only if none did |
| ProviderConfiguration.ProviderChangeRefusedIffTwoBlocks | scalr/resource_scalr_provider_configuration.go:23-37 | the plan is refused if and only if two distinct provider blocks changed |
| ProviderConfiguration.CustomToAwsRefused | scalr/resource_scalr_provider_configuration_test.go:80-84 | switching from a custom block to an aws block is refused |
| Webhook.ValidateEventDefinition | scalr/resource_scalr_webhook.go:113-125 | accepts exactly `run:completed`, `run:errored` and `run:needs_attention`; any other name is refused with a message naming it and quoting every allowed value |
| Webhook.QuotesEveryEvent | scalr/resource_scalr_webhook.go:15-21 | the quoted list names every allowed event and nothing else |
| Webhook.ParseEventDefinitions | scalr/resource_scalr_webhook.go:127-145 | one event definition per ID, in input order, if and only if every ID is allowed; otherwise the error of the first unknown ID |
| Webhook.EnvironmentScope | scalr/resource_scalr_webhook.go:95-105 | a failed environment read is an error naming the environment; otherwise the scope carries that environment's account |
| Webhook.ResourceScope | scalr/resource_scalr_webhook.go:76-111 | a failed workspace read and a workspace outside the given environment are refused; a workspace decides the environment; the account is always the environment's; the scope is missing exactly when no environment is given and none comes from the workspace |
| Webhook.GetResourceScope | scalr/resource_scalr_webhook.go:76-111 | the workspace-then-environment reads return that scope |
| Webhook.AfterRead | scalr/resource_scalr_webhook.go:188-227 | only a found webhook changes state: its events in the API's order, with linked IDs kept when the API leaves them out |
| Webhook.ReadError | scalr/resource_scalr_webhook.go:192-201 | Read fails unless the webhook is found, and reports a missing webhook by its ID |
| Webhook.NotFoundHandling | scalr/resource_scalr_webhook.go:196-263 | a missing webhook is an error for Read and a success for Delete |
| Webhook.WebhookData.Read | scalr/resource_scalr_webhook.go:188-227 | the new state and error are those of the read specification |
| Webhook.WebhookData.Create | scalr/resource_scalr_webhook.go:147-186 | a scope error is returned and nothing is sent; with a scope, the options are sent exactly when the event IDs are valid, carrying that scope and the events in order; otherwise the ID-list error or the first unknown event's error; then creates and reads back, a failure leaving state unchanged |
| Webhook.WebhookData.Update | scalr/resource_scalr_webhook.go:229-252 | sends the parsed events with the configured fields, then reads back; a failure leaves state unchanged |
| Webhook.WebhookData.Delete | scalr/resource_scalr_webhook.go:254-267 | a webhook that is already gone counts as deleted |
| Role.ParsePermissionDefinitions | scalr/resource_scalr_role.go:65-79 | one permission per ID, in the same order, or the validator's error |
| Role.ReconcilePermissions | scalr/resource_scalr_role.go:134-158 | the loop and sorts keep the state's permissions when they hold the remote IDs in some order, and the sorted remote list otherwise |
| Role.ReconciledIgnoresOrder | scalr/resource_scalr_role.go:134-158 | Read leaves the permissions unchanged if and only if they hold the same IDs as the remote role |
| Role.ReconciledHoldsRemote | scalr/resource_scalr_role.go:145-158 | what Read keeps always holds exactly the remote permissions |
| Role.ReconciledIdempotent | scalr/resource_scalr_role.go:134-158 | reconciling twice against the same remote role changes nothing more |
| Role.AfterRead | scalr/resource_scalr_role.go:113-161 | a missing role clears the ID and nothing else; a failed read changes nothing; a found role overwrites the fields, and its permissions are the remote ones, with the state's order kept when only order differs |
| Role.ReadIdempotent | scalr/resource_scalr_role.go:113-161 | reading the same remote role twice leaves the state of the first read |
| Role.RoleData.Read | scalr/resource_scalr_role.go:113-161 | the new state and error are those of the read specification |
| Role.RoleData.Create | scalr/resource_scalr_role.go:81-111 | sends the configured 1 to 128 permissions in order, records the new ID and reads back; a parse or API failure leaves state unchanged |
| Role.RoleData.Update | scalr/resource_scalr_role.go:163-190 | calls the API only if the name, description or permissions changed, then reads back |
| Role.RoleData.Delete | scalr/resource_scalr_role.go:192-207 | a role that is already gone counts as deleted |
| ServiceAccount.ValidateStatus | scalr/resource_scalr_service_account.go:37-48 | accepts exactly the two statuses and names any other value |
| ServiceAccount.CreatedByList | scalr/resource_scalr_service_account.go:102-110 | `created_by` is empty for an unknown creator and holds exactly that creator otherwise |
| ServiceAccount.ShapeCreatedBy | scalr/resource_scalr_service_account.go:102-110 | builds that list |
| ServiceAccount.AfterRead | scalr/resource_scalr_service_account.go:80-113 | a missing account clears the ID and nothing else; a failed read changes nothing; a found one overwrites the fields, with at most one creator entry |
| ServiceAccount.ServiceAccountData.Read | scalr/resource_scalr_service_account.go:80-113 | the new state and error are those of the read specification |
| ServiceAccount.ServiceAccountData.BuildCreateOptions | scalr/resource_scalr_service_account.go:118-133 | name and account always; description and status only when set |
| ServiceAccount.ServiceAccountData.BuildUpdateOptions | scalr/resource_scalr_service_account.go:151-161 | description only if it changed, status only if it changed |
| ServiceAccount.ServiceAccountData.Create | scalr/resource_scalr_service_account.go:115-144 | sends the name and account, and the description and an allowed status exactly when set and with their configured values; records the new ID and reads back; an API failure leaves state unchanged |
| ServiceAccount.ServiceAccountData.Update | scalr/resource_scalr_service_account.go:146-170 | sends the description and the status exactly when they changed, with their configured values; then reads back; an API failure leaves state unchanged |
| ServiceAccount.ServiceAccountData.Delete | scalr/resource_scalr_service_account.go:172-186 | an account that is already gone counts as deleted |
| AccessPolicy.SubjectOf | scalr/data_source_scalr_access_policy.go:84-95 | the subject is the first present of user, team and service account, with its kind and ID; none present gives none |
| AccessPolicy.ScopeOf | scalr/data_source_scalr_access_policy.go:102-113 | the scope is the first present of workspace, environment and account; none present gives none |
| AccessPolicy.FirstLinkedUnique | scalr/data_source_scalr_access_policy.go:84-113 | over distinct kinds only one entry is the first linked one |
| AccessPolicy.SubjectIsFirstLinked | scalr/data_source_scalr_access_policy.go:84-92 | the subject is a given entry if and only if that entry is the first linked subject |
| AccessPolicy.ScopeIsFirstLinked | scalr/data_source_scalr_access_policy.go:102-110 | the scope is a given entry if and only if that entry is the first linked scope |
| AccessPolicy.SubjectAndScopeDiffer | scalr/data_source_scalr_access_policy.go:84-113 | the subject and the scope never have the same kind |
| AccessPolicy.CollectRoleIds | scalr/data_source_scalr_access_policy.go:117-122 | the role IDs in the policy's order |
| AccessPolicy.AccessPolicyData.Read | scalr/data_source_scalr_access_policy.go:67-127 | "AccessPolicy '<id>' not found" for a missing policy; no subject or no scope is an error; on success, subject, scope, role IDs, the system flag and the ID are set from the policy |

## Left out

- The goroutine worker pool in `changeParameters` is left out: `numParallel`, the channels, the wait group and the `done` channel. The executor is a sequential fold over the same task list. In the source, up to `numParallel` workers run tasks at once (lines 733-771): tasks after a failing one may already have been issued, the error kept is the first one received rather than the first in list order, and the created, updated and deleted lists come in arrival order. The fold's properties (`ExecuteFirstError`, `IssuedIsPrefix`, `ExecuteStops`, and the request order in `ExecuteAllSucceed`) hold for that sequential run, not for every interleaving.
- ProviderParameters.Completeness: the remote store is modelled as holding what each successful call sent. The model does not capture a server that changes or drops what it accepts, or other writers between the calls.
- The best-effort rollback delete after a failed create of custom parameters is an I/O side effect whose error is discarded.
- `data_source_scalr_endpoint.go` is left out. It only dispatches between two remote reads and copies fields.
- The ID-list validator (`ValidateIDsDefinitions`) and `scalrAccountIDDefaultFunc` are not part of this model. Their answers enter as the `idsError` parameter and a given account ID.
- All remote calls are parameters: the client's answers and callbacks. The model does not capture retries, HTTP behaviour or the client's own validation.
- Terraform SDK plumbing is left out: schema declarations, diagnostics and logging. `HasChange` and `GetOk` become booleans and emptiness tests on the configured values.
- Go map iteration order is random. It enters as a parameter: a list that enumerates the map's keys once each.
- `StringOrder.Sort` is a functional insertion sort standing for `sort.Strings`. Only its result matters, and the result is unique. Strings are sequences of characters, so the model orders by code point rather than by UTF-8 byte; the two orders agree.
- Error texts are kept only where the source states them and tests or callers depend on them. These are "Provider type can't be changed.", "Missing workspace_id or environment_id", "AccessPolicy '<id>' not found", the permission parse prefix, and the access-policy subject and scope messages. Other errors are datatypes carrying their cause.
- The provider-configuration Create and Update orchestration is only partly modelled. Modelled: the AWS rules, the environments mapping, the custom-argument creation and the `syncArguments` call. Left out: the assembly of the remaining option fields and the `HasChange` gate at lines 565-573.
- The read-back of the google, azurerm and scalr credential blocks is left out. It copies fields with no decision logic.
- ProviderConfiguration.AwsCredentialOptions: the Update path words some errors differently from Create. The model uses one error datatype for both, so the wording difference is not captured.
- The `argument["value"]` presence check in the read merge always succeeds for a set argument, so it is modelled as a plain lookup.
- An unset `is_shared` is left to the server's default. The model records that nothing is sent.
- ServiceAccount.ValidateStatus: the two status strings are constants of the API client library, which is not part of this model. The model writes them as `active` and `inactive`, so the exact casing is not captured.
- AccessPolicy.AccessPolicyData.Read: the type-tag strings of subject and scope come from the API client library. The model names them by kind.
- Webhook.ValidateEventDefinition: the order of the quoted allowed values comes from map iteration. It is a parameter, and only the set of names is stated.
- Go's distinction between a nil pointer and an empty value is modelled as `Option`.
- Of the role or service account returned by a create call, only its ID is kept; the returned object of an update is ignored, as in the source.
