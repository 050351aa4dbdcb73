/** The status query of the cluster tool (`get_cluster_status`): the answer of one
    describe-clusters call by identifier, mapped to a status string. */
module ClusterStatus {
  import opened Wrappers

  /** The status the tool reports for a cluster the service does not know. */
  const Unknown: string := "unknown"

  /** What one describe-clusters call by identifier can answer. */
  datatype DescribeResult =
    | ClusterNotFound                  // the call raised ClusterNotFoundFault
    | Described(statuses: seq<string>) // the ClusterStatus of each cluster listed, in order
    | DescribeFailed                   // the call raised any other exception

  /** Conditions that escape the command as an uncaught exception. */
  datatype Fault =
    | DescribeError   // describe-clusters raised something other than ClusterNotFoundFault
    | NoClusterListed // describe-clusters listed no cluster, so taking the first one fails
    | RoleMissing     // the create path takes the ARN of a role that was neither found nor created

  /** The status string of the cluster, or the fault that escapes the lookup.
      Only ClusterNotFoundFault is caught; every other failure propagates. */
  function GetClusterStatus(d: DescribeResult): (r: Result<string, Fault>)
    ensures r == Ok(Unknown) <==>
      d.ClusterNotFound? || (d.Described? && |d.statuses| > 0 && d.statuses[0] == Unknown)
    ensures r.Ok? && r.value != Unknown ==> d.Described? && |d.statuses| > 0 && d.statuses[0] == r.value
    ensures r.Err? <==> d.DescribeFailed? || d == Described([])
    ensures r == Err(DescribeError) <==> d.DescribeFailed?
    ensures r == Err(NoClusterListed) <==> d == Described([])
  {
    match d
    case ClusterNotFound => Ok(Unknown)
    case Described(statuses) => if |statuses| == 0 then Err(NoClusterListed) else Ok(statuses[0])
    case DescribeFailed => Err(DescribeError)
  }

  /** As long as no listed cluster itself reports the status "unknown", the tool
      reports "unknown" exactly for a cluster the service does not know. */
  lemma UnknownExactlyWhenNotFound(d: DescribeResult)
    requires d.Described? && |d.statuses| > 0 ==> d.statuses[0] != Unknown
    ensures GetClusterStatus(d) == Ok(Unknown) <==> d.ClusterNotFound?
  {
  }

  /** A cluster that is found is reported with the status of the first cluster listed. */
  lemma FoundReportsFirstStatus(d: DescribeResult)
    requires d.Described? && |d.statuses| > 0
    ensures GetClusterStatus(d) == Ok(d.statuses[0])
  {
  }
}
