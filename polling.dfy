/** The bounded status poll of the create and delete flows: at most ten status
    queries, stopping at the first target status and printing every other status
    seen. The ten-second waits between queries are not modelled. */
module Polling {
  import opened Wrappers
  import opened ClusterStatus

  /** The number of status queries a poll makes at most. */
  const MaxPolls: nat := 10

  /** The status a cluster that has finished being created reports. */
  const Available: string := "available"

  /** The status reported by the `k`-th describe call of a run. */
  function StatusAt(describe: nat -> DescribeResult, k: nat): Result<string, Fault> {
    GetClusterStatus(describe(k))
  }

  /** How a poll ends: the target status was seen, the queries ran out
      (silently, with no error), or a query raised. */
  datatype PollEnd = Reached | Exhausted | Aborted(fault: Fault)

  /** The number of queries a poll made, the statuses it printed, and how it ended. */
  datatype PollResult = PollResult(queries: nat, printed: seq<string>, end: PollEnd)

  /** A poll of at most `budget` queries, the first of them being describe call `next`. */
  function Poll(target: string, describe: nat -> DescribeResult, next: nat, budget: nat): (r: PollResult)
    ensures r.queries <= budget
    ensures budget > 0 ==> r.queries > 0
    ensures r.end.Exhausted? ==> r.queries == budget
    ensures |r.printed| == if r.end.Exhausted? then r.queries else r.queries - 1
    decreases budget
  {
    if budget == 0 then PollResult(0, [], Exhausted)
    else
      match StatusAt(describe, next)
      case Err(f) => PollResult(1, [], Aborted(f))
      case Ok(s) =>
        if s == target then PollResult(1, [], Reached)
        else
          var rest := Poll(target, describe, next + 1, budget - 1);
          PollResult(rest.queries + 1, [s] + rest.printed, rest.end)
  }

  /** The first `done` queries (which printed `printed`) followed by the rest of the poll. */
  function After(done: nat, printed: seq<string>, rest: PollResult): PollResult {
    PollResult(done + rest.queries, printed + rest.printed, rest.end)
  }

  /** One query that misses the target, followed by the rest of the poll. */
  lemma PollMiss(target: string, describe: nat -> DescribeResult, next: nat, budget: nat)
    requires budget > 0 && StatusAt(describe, next).Ok? && StatusAt(describe, next).value != target
    ensures Poll(target, describe, next, budget) ==
      After(1, [StatusAt(describe, next).value], Poll(target, describe, next + 1, budget - 1))
  {
  }

  /** The poll loop of the source: count `i` down from the number of attempts
      (ten in the flows), query, stop at the target, otherwise print the status
      and go on. */
  method PollStatus(target: string, describe: nat -> DescribeResult, first: nat, attempts: nat) returns (r: PollResult)
    ensures r == Poll(target, describe, first, attempts)
  {
    var i := attempts;
    var printed: seq<string> := [];
    while i > 0
      invariant 0 <= i <= attempts
      invariant Poll(target, describe, first, attempts) ==
        After(attempts - i, printed, Poll(target, describe, first + (attempts - i), i))
    {
      var k := first + (attempts - i);
      var status := GetClusterStatus(describe(k));
      if status.Err? {
        return PollResult(attempts - i + 1, printed, Aborted(status.error));
      }
      if status.value == target {
        return PollResult(attempts - i + 1, printed, Reached);
      }
      PollMiss(target, describe, k, i);
      ghost var rest := Poll(target, describe, k + 1, i - 1);
      assert printed + ([status.value] + rest.printed) == (printed + [status.value]) + rest.printed;
      i := i - 1;
      printed := printed + [status.value];
    }
    return PollResult(attempts, printed, Exhausted);
  }

  /** Every printed status is the answer of one query, in query order, and none
      of them is the target. */
  lemma {:induction false} PollPrintsEachMissInOrder(target: string, describe: nat -> DescribeResult, next: nat, budget: nat, j: nat)
    requires j < |Poll(target, describe, next, budget).printed|
    ensures StatusAt(describe, next + j) == Ok(Poll(target, describe, next, budget).printed[j])
    ensures Poll(target, describe, next, budget).printed[j] != target
    decreases budget
  {
    if j > 0 {
      PollPrintsEachMissInOrder(target, describe, next + 1, budget - 1, j - 1);
    }
  }

  /** The last query tells how the poll ended: with the target status, with the
      fault it raised, or, when the queries ran out, with neither. */
  lemma {:induction false} PollLastQuery(target: string, describe: nat -> DescribeResult, next: nat, budget: nat)
    ensures var r := Poll(target, describe, next, budget);
      && (r.end.Reached? ==> StatusAt(describe, next + r.queries - 1) == Ok(target))
      && (r.end.Aborted? ==> StatusAt(describe, next + r.queries - 1) == Err(r.end.fault))
    decreases budget
  {
    if budget > 0 && StatusAt(describe, next).Ok? && StatusAt(describe, next).value != target {
      PollLastQuery(target, describe, next + 1, budget - 1);
    }
  }

  /** A poll stops at the FIRST target status within its budget, after exactly
      the queries up to it, having printed every status before it. */
  lemma {:induction false} PollStopsAtFirstTarget(target: string, describe: nat -> DescribeResult, next: nat, budget: nat, k: nat)
    requires k < budget
    requires StatusAt(describe, next + k) == Ok(target)
    requires forall m :: next <= m < next + k ==> StatusAt(describe, m).Ok? && StatusAt(describe, m).value != target
    ensures Poll(target, describe, next, budget).end == Reached
    ensures Poll(target, describe, next, budget).queries == k + 1
    decreases k
  {
    if k > 0 {
      assert StatusAt(describe, next).Ok?;
      PollStopsAtFirstTarget(target, describe, next + 1, budget - 1, k - 1);
    }
  }

  /** A poll whose budget runs out saw only non-target statuses, made exactly
      `budget` queries and printed each of them; it raises no error. */
  lemma PollExhaustedSawNoTarget(target: string, describe: nat -> DescribeResult, next: nat, budget: nat)
    requires Poll(target, describe, next, budget).end.Exhausted?
    ensures Poll(target, describe, next, budget).queries == budget
    ensures |Poll(target, describe, next, budget).printed| == budget
    ensures forall m :: next <= m < next + budget ==> StatusAt(describe, m).Ok? && StatusAt(describe, m).value != target
  {
    forall m | next <= m < next + budget
      ensures StatusAt(describe, m).Ok? && StatusAt(describe, m).value != target
    {
      PollPrintsEachMissInOrder(target, describe, next, budget, m - next);
    }
  }
}
