# Cluster tool control logic, in Dafny

A model of the decision and retry logic of `redshift_util.py`. This is the
command-line tool that provisions and tears down a data-warehouse cluster and
its access role. The cloud services are an oracle:

- the role lookup answers with a role or nothing;
- role creation fails, creates the role but fails to attach the policy, or succeeds;
- the `k`-th describe-clusters call of a run answers "not found", a list of
  cluster statuses, or a failure.

Given that oracle, the model states and proves:

- the mutually exclusive flags check (`exclusive_options.dfy`);
- the status lookup mapping (`cluster_status.dfy`);
- the hardware parameters of a create request (`hardware_params.dfy`);
- the bounded status poll (`polling.dfy`);
- the status/create/delete branches of the command (`lifecycle.dfy`).

A run is described by the calls it makes, the statuses it prints, the number
of describe calls and the fault (uncaught exception) that ended it.
`wrappers.dfy` holds `Option` and `Result`.

The model follows the code as written; in particular:

- A policy-attachment call follows role creation only when creation succeeded.
- A failed attachment leaves the create branch without a role.
- A listed cluster whose own status is "unknown" is reported the same way as a
  missing cluster. `UnknownExactlyWhenNotFound` needs that case excluded.
- Running out of poll attempts is silent: the run ends with no fault.

## Model

| member | source | states |
|---|---|---|
| `ExclusiveOptions.JoinHoldsEachName` | redshift_util.py:18 | each name joined with ", " stands unchanged at its computed offset in the joined string |
| `ExclusiveOptions.HelpText` | redshift_util.py:16-22 | help is unchanged when nothing is excluded; otherwise it is strictly longer and keeps the original help as its prefix |
| `ExclusiveOptions.HelpTextShape` | redshift_util.py:17-22 | with something excluded, the help text is the original help, the NOTE opening words, the excluded names joined by ", ", and "]." |
| `ExclusiveOptions.HelpNamesEveryExcluded` | redshift_util.py:16-22 | every excluded option's name appears in the NOTE of the help text |
| `ExclusiveOptions.MakeOption` | redshift_util.py:14-23 | the constructor keeps the name, turns the exclusion list into a set with the same members, and changes the help text exactly when the list is not empty |
| `ExclusiveOptions.HandleParseResult` | redshift_util.py:25-39 | a usage error exactly when the option is given together with some option it excludes; the message begins with "Illegal usage: `" and the option's name; otherwise it defers to ordinary parsing |
| `ExclusiveOptions.ParseCommand` | redshift_util.py:190-203 | the command is rejected exactly when some option's check rejects, with the message of the first rejecting option |
| `ExclusiveOptions.CliOptionsDeclared` | redshift_util.py:190-202 | the tool declares create, delete and status, each excluding exactly the other two |
| `ExclusiveOptions.DeclaredFlagsRejectExactlyTwo` | redshift_util.py:25-39 | for options declared that way, parsing rejects exactly when two of the flags are given together |
| `ExclusiveOptions.CliRejectsExactlyTwoFlags` | redshift_util.py:190-202 | with the declared exclusions, any two of create/delete/status together are rejected, symmetrically, and zero or one flag never is |
| `ExclusiveOptions.CliRejectsMoreThanOneFlag` | redshift_util.py:190-202 | among the three flags, rejection happens exactly when at least two are given |
| `ClusterStatus.GetClusterStatus` | redshift_util.py:108-124 | "unknown" exactly for cluster-not-found or a first cluster reporting "unknown"; any other status is the first cluster's; every other failure escapes as a fault |
| `ClusterStatus.UnknownExactlyWhenNotFound` | redshift_util.py:118-124 | when no listed cluster reports "unknown" itself, "unknown" is returned exactly for cluster-not-found |
| `ClusterStatus.FoundReportsFirstStatus` | redshift_util.py:120-122 | a found cluster is reported with the first listed cluster's status |
| `HardwareParams.ParseInt` | redshift_util.py:153 | conversion succeeds exactly on an optional '+' or '-' followed by at least one digit, and gives the signed decimal value of those digits |
| `HardwareParams.ParseShowInt` | redshift_util.py:153 | conversion reads back every integer from its decimal spelling |
| `HardwareParams.HwParams` | redshift_util.py:151-154 | ClusterType and NodeType always present with the configured values; NumberOfNodes present, as the converted count, exactly when the node type is "multi-node"; no request when that conversion fails |
| `HardwareParams.BuildHwParams` | redshift_util.py:150-154 | inserting the keys one by one builds exactly those parameters |
| `HardwareParams.MultiNodeClusterLacksNodeCount` | redshift_util.py:152 | a multi-node cluster of dc2.large nodes is requested without a node count |
| `HardwareParams.IntendedHwParams` | redshift_util.py:136-138 | with the documented condition, NumberOfNodes is present exactly for a multi-node cluster type |
| `HardwareParams.IntendedMultiNodeCarriesCount` | redshift_util.py:136-138 | with the documented condition, a multi-node cluster always carries its configured node count |
| `Polling.Poll` | redshift_util.py:256-265 | at most the budget of queries and at least one; exhaustion means every query was used; one printed status per query, except the final target or fault |
| `Polling.PollStatus` | redshift_util.py:256-265 | the count-down loop with early break computes exactly the poll |
| `Polling.PollPrintsEachMissInOrder` | redshift_util.py:258-265 | the j-th printed status is the j-th query's answer, and it is not the target |
| `Polling.PollLastQuery` | redshift_util.py:257-261 | a poll that reached the target saw it at its last query; an aborted poll's fault is its last query's |
| `Polling.PollStopsAtFirstTarget` | redshift_util.py:257-261 | when the first target status within budget is the k-th answer, the poll stops there after exactly k+1 queries |
| `Polling.PollExhaustedSawNoTarget` | redshift_util.py:256-265 | a poll that runs out made all its queries, printed every one, and saw only non-target statuses |
| `Lifecycle.StatusStep` | redshift_util.py:235-237 | the status branch step by step equals `StatusBranch`: one describe call, then the status printed or its fault |
| `Lifecycle.CreateStep` | redshift_util.py:239-265 | the create branch step by step, composing `BuildHwParams` and the `PollStatus` loop, equals `CreateBranch` |
| `Lifecycle.DeleteStep` | redshift_util.py:267-283 | the delete branch step by step, composing the `PollStatus` loop, equals `DeleteBranch` |
| `Lifecycle.RunCommand` | redshift_util.py:235-283 | the command body runs the three branches in order, stopping at a fault, and equals `Execute` |
| `Lifecycle.Invoke` | redshift_util.py:190-203 | a usage error, before any call, exactly when two flags are given together; otherwise the run of the given flags |
| `Lifecycle.NoFlagNoCall` | redshift_util.py:235-283 | without flags nothing is called or printed |
| `Lifecycle.StatusFlagPrintsStatus` | redshift_util.py:235-237 | the status flag makes one describe call and prints the status, or ends with the lookup's fault |
| `Lifecycle.CreateRoleOnlyWhenAbsent` | redshift_util.py:241-244 | the role is looked up first; role creation only when the lookup found nothing; the policy is attached only after a successful creation |
| `Lifecycle.CreateClusterOnlyWhenUnknown` | redshift_util.py:246-253 | a create request is issued exactly when the status is "unknown", a role was obtained and the node count converts |
| `Lifecycle.CreateNoOpUnlessUnknown` | redshift_util.py:246-248 | any status other than "unknown" leaves the create branch at the role calls and the status check |
| `Lifecycle.MissingRoleFault` | redshift_util.py:243-249 | the run fails on the role's ARN exactly when neither lookup nor creation gave a role and the status is "unknown" |
| `Lifecycle.CreatePollsForAvailable` | redshift_util.py:248-265 | after the create request the branch polls for "available": at most ten more describe calls, printing what the poll prints, no fault on exhaustion |
| `Lifecycle.DeleteOnlyWhenAvailable` | redshift_util.py:267-272 | deletion is requested exactly when the status is "available"; otherwise only the status check happens |
| `Lifecycle.DeletePollsForUnknown` | redshift_util.py:269-283 | deletion skips the final snapshot, then polls for "unknown": at most ten more describe calls, printing what the poll prints |
| `Lifecycle.AtMostOneBranch` | redshift_util.py:190-203 | an invocation past the flag check has at most one flag set, and with none it makes no call |

## Findings

| source | as written | input that shows it | evidently intended | confidence | as-written member | corrected member |
|---|---|---|---|---|---|---|
| redshift_util.py:152 | the node count is added when the NODE type equals "multi-node" | cluster type "multi-node", node type "dc2.large", node count "4": the request has no NumberOfNodes | add the node count for a multi-node CLUSTER type, as the docstring at lines 136-138 says | high; not executed | `HardwareParams.MultiNodeClusterLacksNodeCount` | `HardwareParams.IntendedMultiNodeCarriesCount` |

The command model (`Lifecycle`) uses `HwParams`, the condition as written,
because it describes the request the tool actually sends.
`IntendedHwParams` is the corrected definition.

## Left out

- Cloud calls: the role, cluster and describe calls are the oracle `Cloud`. Create and delete acknowledgements are ignored, as the tool ignores them.
- Printed output: only the printed statuses are modelled. Progress lines and printed exception texts are left out.
- Time: the ten-second waits before and between polls are not modelled.
- Configuration and clients: reading the configuration file and building the clients is I/O. The configuration values are a `Config` parameter. Credentials and region are left out.
- `delete_iam_role` (redshift_util.py:77-88): `main` never uses it; it is a single cloud call.
- The trust-policy document passed to role creation is a constant for the cloud service and is not modelled.
- `sql_queries.py` is not part of this model. It is static SQL text plus two string substitutions.
- Set order: the order in which the source iterates a set of names is unspecified. It is the `order` parameter. `CliOptions` fixes it to the declaration order.
- Click: its parsing machinery is not modelled. The options given become a set of names. `ParseCommand` checks options in the order given. Which rejected option's message is shown depends on that order; whether the command is rejected does not.
- Invoke: when two flags are given it reports the first rejecting flag in declaration order (create, delete, status); the tool reports the first one in command-line order, so for `-s -c` the message can name a different option.
- `HardwareParams.ParseInt`: does not model surrounding whitespace, underscores or non-ASCII digits, which integer conversion also accepts.
- Describe failures: every failure other than cluster-not-found is the single `DescribeFailed`.
- Process exit: an uncaught exception ends the run with a fault. The traceback and exit status are not modelled.
- Role truthiness: a found role is taken as present. An empty role record, which would count as absent, is not modelled.
