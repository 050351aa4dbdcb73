/** The cluster tool's command (`main`): one invocation parses the three
    mutually exclusive flags, then runs the status, create and delete branches
    in that order, each only when its flag is set. The cloud services are an
    oracle: the role lookup, the outcome of role creation, and the answer of
    each successive describe-clusters call. What the tool does is recorded as
    the calls it makes and the statuses it prints. */
module Lifecycle {
  import opened Wrappers
  import opened ClusterStatus
  import opened HardwareParams
  import opened Polling
  import opened ExclusiveOptions

  /** The managed policy attached to a newly created role. */
  const ReadOnlyPolicy: string := "arn:aws:iam::aws:policy/AmazonS3ReadOnlyAccess"

  datatype Role = Role(arn: string)

  /** How the role-creation helper ends. When attaching the policy raises, the
      role exists but the helper returns nothing. */
  datatype RoleCreation = CreateRoleFailed | AttachPolicyFailed | RoleCreated(role: Role)

  /** The cloud as the tool sees it: the role lookup (nothing when the role is
      absent or the lookup raised), the outcome of creating the role, and the
      answer of the `k`-th describe-clusters call of the run. */
  datatype Cloud = Cloud(role: Option<Role>, roleCreation: RoleCreation, describe: nat -> DescribeResult)

  /** The configuration values the command reads. */
  datatype Config = Config(
    clusterType: string,
    numNodes: string,
    nodeType: string,
    clusterIdentifier: string,
    db: string,
    dbUser: string,
    dbPassword: string,
    roleName: string)

  /** The create-cluster request. */
  datatype ClusterRequest = ClusterRequest(
    hw: map<string, HwValue>,
    dbName: string,
    clusterIdentifier: string,
    masterUsername: string,
    masterUserPassword: string,
    iamRoles: seq<string>)

  /** A call into the cloud services. */
  datatype Call =
    | GetRole(roleName: string)
    | CreateRole(roleName: string)
    | AttachPolicy(roleName: string, policyArn: string)
    | DescribeClusters(clusterIdentifier: string)
    | CreateCluster(request: ClusterRequest)
    | DeleteCluster(clusterIdentifier: string, skipFinalSnapshot: bool)

  datatype Flags = Flags(create: bool, delete: bool, status: bool)

  /** What a run did: the calls made, the statuses printed, the number of
      describe calls, and the fault that ended it, if any. */
  datatype Run = Run(calls: seq<Call>, printed: seq<string>, describes: nat, fault: Option<Fault>)

  function Request(hw: map<string, HwValue>, cfg: Config, arn: string): ClusterRequest {
    ClusterRequest(hw, cfg.db, cfg.clusterIdentifier, cfg.dbUser, cfg.dbPassword, [arn])
  }

  /** `n` copies of one call. */
  function Repeat(c: Call, n: nat): (s: seq<Call>)
    ensures |s| == n && forall i :: 0 <= i < n ==> s[i] == c
  {
    if n == 0 then [] else [c] + Repeat(c, n - 1)
  }

  /** The calls the role-creation helper makes: creating the role and, when
      that succeeded, attaching the policy. */
  function RoleCreationCalls(name: string, c: RoleCreation): seq<Call> {
    [CreateRole(name)] + if c.CreateRoleFailed? then [] else [AttachPolicy(name, ReadOnlyPolicy)]
  }

  function CreatedRole(c: RoleCreation): Option<Role> {
    if c.RoleCreated? then Some(c.role) else None
  }

  /** The role the create branch holds after the lookup and, if needed, the creation. */
  function ObtainedRole(cloud: Cloud): Option<Role> {
    if cloud.role.Some? then cloud.role else CreatedRole(cloud.roleCreation)
  }

  /** The role calls of the create branch. */
  function RoleCalls(cfg: Config, cloud: Cloud): seq<Call> {
    [GetRole(cfg.roleName)] + if cloud.role.None? then RoleCreationCalls(cfg.roleName, cloud.roleCreation) else []
  }

  /** The create-cluster calls: none when the node count does not convert. */
  function CreateCalls(cfg: Config, arn: string): seq<Call> {
    match HwParams(cfg.clusterType, cfg.nodeType, cfg.numNodes)
    case None => []
    case Some(hw) => [CreateCluster(Request(hw, cfg, arn))]
  }

  /** A run after one more describe call. */
  function AfterDescribe(cfg: Config, r: Run, before: seq<Call>): Run {
    r.(calls := r.calls + before + [DescribeClusters(cfg.clusterIdentifier)], describes := r.describes + 1)
  }

  /** A run after a poll. */
  function WithPoll(cfg: Config, r: Run, p: PollResult): Run {
    Run(r.calls + Repeat(DescribeClusters(cfg.clusterIdentifier), p.queries),
        r.printed + p.printed,
        r.describes + p.queries,
        if p.end.Aborted? then Some(p.end.fault) else None)
  }

  /** The status branch: print the status. */
  function StatusBranch(cfg: Config, cloud: Cloud, r: Run): Run {
    var r1 := AfterDescribe(cfg, r, []);
    match StatusAt(cloud.describe, r.describes)
    case Err(f) => r1.(fault := Some(f))
    case Ok(s) => r1.(printed := r1.printed + [s])
  }

  /** The create branch: obtain the role, and only for an unknown cluster
      request it and poll until it is available. */
  function CreateBranch(cfg: Config, cloud: Cloud, r: Run): Run {
    var role := ObtainedRole(cloud);
    var r1 := AfterDescribe(cfg, r, RoleCalls(cfg, cloud));
    match StatusAt(cloud.describe, r.describes)
    case Err(f) => r1.(fault := Some(f))
    case Ok(s) =>
      if s != Unknown then r1
      else if role.None? then r1.(fault := Some(RoleMissing))
      else WithPoll(cfg, r1.(calls := r1.calls + CreateCalls(cfg, role.value.arn)),
                    Poll(Available, cloud.describe, r1.describes, MaxPolls))
  }

  /** The delete branch: only for an available cluster, delete it without a
      final snapshot and poll until it is unknown. */
  function DeleteBranch(cfg: Config, cloud: Cloud, r: Run): Run {
    var r1 := AfterDescribe(cfg, r, []);
    match StatusAt(cloud.describe, r.describes)
    case Err(f) => r1.(fault := Some(f))
    case Ok(s) =>
      if s != Available then r1
      else WithPoll(cfg, r1.(calls := r1.calls + [DeleteCluster(cfg.clusterIdentifier, true)]),
                    Poll(Unknown, cloud.describe, r1.describes, MaxPolls))
  }

  /** The three branches in the order of the source; a fault ends the run. */
  function Execute(flags: Flags, cfg: Config, cloud: Cloud): Run {
    var r0 := Run([], [], 0, None);
    var r1 := if flags.status then StatusBranch(cfg, cloud, r0) else r0;
    var r2 := if flags.create && r1.fault.None? then CreateBranch(cfg, cloud, r1) else r1;
    if flags.delete && r2.fault.None? then DeleteBranch(cfg, cloud, r2) else r2
  }

  /** The status branch, step by step. */
  method StatusStep(cfg: Config, cloud: Cloud, r: Run) returns (r': Run)
    ensures r' == StatusBranch(cfg, cloud, r)
  {
    var calls := r.calls + [DescribeClusters(cfg.clusterIdentifier)];
    var status := GetClusterStatus(cloud.describe(r.describes));
    if status.Err? {
      return Run(calls, r.printed, r.describes + 1, Some(status.error));
    }
    return Run(calls, r.printed + [status.value], r.describes + 1, r.fault);
  }

  /** The create branch, step by step: look the role up, create it when the
      lookup found nothing, check the status, and only for an unknown cluster
      request it and poll. */
  method CreateStep(cfg: Config, cloud: Cloud, r: Run) returns (r': Run)
    ensures r' == CreateBranch(cfg, cloud, r)
  {
    var id := cfg.clusterIdentifier;
    var calls := r.calls + [GetRole(cfg.roleName)];
    var role := cloud.role;
    if role.None? {
      calls := calls + RoleCreationCalls(cfg.roleName, cloud.roleCreation);
      role := CreatedRole(cloud.roleCreation);
    }
    assert calls == r.calls + RoleCalls(cfg, cloud);
    calls := calls + [DescribeClusters(id)];
    var describes := r.describes + 1;
    var status := GetClusterStatus(cloud.describe(r.describes));
    if status.Err? {
      return Run(calls, r.printed, describes, Some(status.error));
    }
    if status.value != Unknown {
      return Run(calls, r.printed, describes, r.fault);
    }
    if role.None? {
      return Run(calls, r.printed, describes, Some(RoleMissing));
    }
    var hw := BuildHwParams(cfg.clusterType, cfg.nodeType, cfg.numNodes);
    if hw.Some? {
      calls := calls + [CreateCluster(Request(hw.value, cfg, role.value.arn))];
    }
    assert calls == r.calls + RoleCalls(cfg, cloud) + [DescribeClusters(id)] + CreateCalls(cfg, role.value.arn);
    var p := PollStatus(Available, cloud.describe, describes, MaxPolls);
    return WithPoll(cfg, Run(calls, r.printed, describes, r.fault), p);
  }

  /** The delete branch, step by step. */
  method DeleteStep(cfg: Config, cloud: Cloud, r: Run) returns (r': Run)
    ensures r' == DeleteBranch(cfg, cloud, r)
  {
    var id := cfg.clusterIdentifier;
    var calls := r.calls + [DescribeClusters(id)];
    var describes := r.describes + 1;
    var status := GetClusterStatus(cloud.describe(r.describes));
    if status.Err? {
      return Run(calls, r.printed, describes, Some(status.error));
    }
    if status.value != Available {
      return Run(calls, r.printed, describes, r.fault);
    }
    calls := calls + [DeleteCluster(id, true)];
    var p := PollStatus(Unknown, cloud.describe, describes, MaxPolls);
    return WithPoll(cfg, Run(calls, r.printed, describes, r.fault), p);
  }

  /** The command body: the branches in the order of the source; a fault
      (an uncaught exception) ends the run. */
  method RunCommand(flags: Flags, cfg: Config, cloud: Cloud) returns (run: Run)
    ensures run == Execute(flags, cfg, cloud)
  {
    run := Run([], [], 0, None);
    if flags.status {
      run := StatusStep(cfg, cloud, run);
    }
    if flags.create && run.fault.None? {
      run := CreateStep(cfg, cloud, run);
    }
    if flags.delete && run.fault.None? {
      run := DeleteStep(cfg, cloud, run);
    }
  }

  /** The flags named on the command line. */
  function FlagsOf(opts: set<string>): Flags {
    Flags(CreateFlag in opts, DeleteFlag in opts, StatusFlag in opts)
  }

  /** How an invocation ends: a usage error before anything runs, or a run. */
  datatype Invocation = UsageFailure(message: string) | Completed(run: Run)

  /** An invocation: the flags are checked first, and any two of them together
      are a usage error, raised before any call into the cloud. */
  function Invoke(opts: set<string>, cfg: Config, cloud: Cloud): (v: Invocation)
    ensures v.UsageFailure? <==> TwoFlagsGiven(opts)
    ensures v.Completed? ==> v.run == Execute(FlagsOf(opts), cfg, cloud)
  {
    CliRejectsExactlyTwoFlags(opts);
    match ParseCommand(CliOptions(), opts)
    case UsageError(m) => UsageFailure(m)
    case Deferred => Completed(Execute(FlagsOf(opts), cfg, cloud))
  }

  /** A run invoked without any flag makes no call and prints nothing. */
  lemma NoFlagNoCall(cfg: Config, cloud: Cloud)
    ensures Execute(Flags(false, false, false), cfg, cloud) == Run([], [], 0, None)
  {
  }

  /** The status of the cluster before a branch acts: the first describe call. */
  function FirstStatus(cloud: Cloud): Result<string, Fault> {
    StatusAt(cloud.describe, 0)
  }

  /** The status flag makes one describe call and prints the status it reports. */
  lemma StatusFlagPrintsStatus(cfg: Config, cloud: Cloud)
    ensures var r := Execute(Flags(false, false, true), cfg, cloud);
      && r.calls == [DescribeClusters(cfg.clusterIdentifier)]
      && r.printed == (if FirstStatus(cloud).Ok? then [FirstStatus(cloud).value] else [])
      && r.fault == (if FirstStatus(cloud).Err? then Some(FirstStatus(cloud).error) else None)
  {
  }

  /** The run of the create flag. */
  function CreateRun(cfg: Config, cloud: Cloud): Run {
    Execute(Flags(true, false, false), cfg, cloud)
  }

  /** The role is looked up first; it is created, and the policy attached after
      a successful creation, only when the lookup found nothing. */
  lemma CreateRoleOnlyWhenAbsent(cfg: Config, cloud: Cloud)
    ensures CreateRun(cfg, cloud).calls[0] == GetRole(cfg.roleName)
    ensures CreateRole(cfg.roleName) in CreateRun(cfg, cloud).calls <==> cloud.role.None?
    ensures AttachPolicy(cfg.roleName, ReadOnlyPolicy) in CreateRun(cfg, cloud).calls <==>
      cloud.role.None? && !cloud.roleCreation.CreateRoleFailed?
  {
  }

  /** Whether the calls include a create-cluster request. */
  predicate IssuesCreate(calls: seq<Call>) {
    exists i :: 0 <= i < |calls| && calls[i].CreateCluster?
  }

  /** Whether the calls include a delete-cluster request. */
  predicate IssuesDelete(calls: seq<Call>) {
    exists i :: 0 <= i < |calls| && calls[i].DeleteCluster?
  }

  /** A cluster is requested exactly when it is unknown, a role was obtained,
      and the node count converts. */
  lemma {:induction false} CreateClusterOnlyWhenUnknown(cfg: Config, cloud: Cloud)
    ensures IssuesCreate(CreateRun(cfg, cloud).calls) <==>
      && FirstStatus(cloud) == Ok(Unknown)
      && ObtainedRole(cloud).Some?
      && HwParams(cfg.clusterType, cfg.nodeType, cfg.numNodes).Some?
  {
    var r := CreateRun(cfg, cloud);
    var rc := RoleCalls(cfg, cloud);
    var id := cfg.clusterIdentifier;
    var role := ObtainedRole(cloud);
    assert !IssuesCreate(rc + [DescribeClusters(id)]);
    if role.Some? && FirstStatus(cloud) == Ok(Unknown) {
      var p := Poll(Available, cloud.describe, 1, MaxPolls);
      var cc := CreateCalls(cfg, role.value.arn);
      var rep := Repeat(DescribeClusters(id), p.queries);
      var head := rc + [DescribeClusters(id)];
      assert r.calls == head + cc + rep;
      if HwParams(cfg.clusterType, cfg.nodeType, cfg.numNodes).Some? {
        assert r.calls[|head|].CreateCluster?;
      } else {
        assert r.calls == head + rep;
        forall i | 0 <= i < |r.calls| ensures !r.calls[i].CreateCluster? {
          if i >= |head| {
            assert r.calls[i] == rep[i - |head|];
          }
        }
      }
    } else {
      assert r.calls == rc + [DescribeClusters(id)];
    }
  }

  /** For any status other than unknown the create branch does nothing beyond
      the role calls and the status check. */
  lemma CreateNoOpUnlessUnknown(cfg: Config, cloud: Cloud)
    requires FirstStatus(cloud).Ok? && FirstStatus(cloud).value != Unknown
    ensures CreateRun(cfg, cloud) ==
      Run(RoleCalls(cfg, cloud) + [DescribeClusters(cfg.clusterIdentifier)], [], 1, None)
  {
  }

  /** The create branch fails on a missing role exactly when neither the lookup
      nor the creation gave a role and the cluster is unknown. */
  lemma MissingRoleFault(cfg: Config, cloud: Cloud)
    ensures CreateRun(cfg, cloud).fault == Some(RoleMissing) <==>
      cloud.role.None? && !cloud.roleCreation.RoleCreated? && FirstStatus(cloud) == Ok(Unknown)
  {
  }

  /** For an unknown cluster with a role, the create branch polls at most ten
      times for "available", printing what the poll prints; running out of
      attempts ends the run without a fault. */
  lemma CreatePollsForAvailable(cfg: Config, cloud: Cloud)
    requires FirstStatus(cloud) == Ok(Unknown) && ObtainedRole(cloud).Some?
    ensures var r := CreateRun(cfg, cloud);
      var p := Poll(Available, cloud.describe, 1, MaxPolls);
      && r.calls == RoleCalls(cfg, cloud) + [DescribeClusters(cfg.clusterIdentifier)]
           + CreateCalls(cfg, ObtainedRole(cloud).value.arn)
           + Repeat(DescribeClusters(cfg.clusterIdentifier), p.queries)
      && r.printed == p.printed
      && r.describes == 1 + p.queries <= 1 + MaxPolls
      && (p.end.Exhausted? ==> r.fault.None?)
  {
  }

  /** The run of the delete flag. */
  function DeleteRun(cfg: Config, cloud: Cloud): Run {
    Execute(Flags(false, true, false), cfg, cloud)
  }

  /** Deletion is requested exactly when the cluster is available. */
  lemma {:induction false} DeleteOnlyWhenAvailable(cfg: Config, cloud: Cloud)
    ensures IssuesDelete(DeleteRun(cfg, cloud).calls) <==> FirstStatus(cloud) == Ok(Available)
    ensures FirstStatus(cloud).Ok? && FirstStatus(cloud).value != Available ==>
      DeleteRun(cfg, cloud) == Run([DescribeClusters(cfg.clusterIdentifier)], [], 1, None)
  {
    var r := DeleteRun(cfg, cloud);
    var id := cfg.clusterIdentifier;
    if FirstStatus(cloud) == Ok(Available) {
      assert r.calls[1] == DeleteCluster(id, true);
    } else {
      assert r.calls == [DescribeClusters(id)];
    }
  }

  /** For an available cluster, the delete branch deletes it without a final
      snapshot and polls at most ten times for "unknown". */
  lemma DeletePollsForUnknown(cfg: Config, cloud: Cloud)
    requires FirstStatus(cloud) == Ok(Available)
    ensures var r := DeleteRun(cfg, cloud);
      var p := Poll(Unknown, cloud.describe, 1, MaxPolls);
      && r.calls == [DescribeClusters(cfg.clusterIdentifier), DeleteCluster(cfg.clusterIdentifier, true)]
           + Repeat(DescribeClusters(cfg.clusterIdentifier), p.queries)
      && r.printed == p.printed
      && r.describes == 1 + p.queries <= 1 + MaxPolls
      && (p.end.Exhausted? ==> r.fault.None?)
  {
  }

  /** An invocation that passes the flag check runs at most one branch: the
      other branches make no call. */
  lemma AtMostOneBranch(opts: set<string>, cfg: Config, cloud: Cloud)
    requires Invoke(opts, cfg, cloud).Completed?
    ensures var f := FlagsOf(opts);
      (f.create ==> !f.delete && !f.status) && (f.delete ==> !f.status)
    ensures var f := FlagsOf(opts);
      !f.create && !f.delete && !f.status ==> Invoke(opts, cfg, cloud).run.calls == []
  {
  }
}
