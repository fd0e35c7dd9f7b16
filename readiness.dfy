/**
 * The readiness handshake (`_wait_until_partners_ready`): a node keeps
 * sending `ready_check` messages, one attempt per second, until its
 * partners answer. An analyzer waits for its aggregator; the aggregator
 * waits for an attempt in which as many nodes answer as there are
 * participants. The retry loops have no bound in the code, so the model
 * runs at most `fuel` attempts.
 */
module Readiness {
  import opened Wrappers
  import opened Flame

  /** The timeout of every ready_check send. */
  const ReadyTimeout: nat := 120

  function ReadyCheckSend(receivers: seq<NodeId>): Event
  {
    Send(receivers, ReadyCheck, map[], Some(ReadyTimeout))
  }

  /** The log of `n` ready_check attempts to the same receivers. */
  function ReadyChecks(receivers: seq<NodeId>, n: nat): (r: seq<Event>)
    ensures |r| == n
    ensures forall k :: 0 <= k < n ==> r[k] == ReadyCheckSend(receivers)
  {
    seq(n, _ => ReadyCheckSend(receivers))
  }

  /**
   * The number of attempts a retry loop makes when it starts at attempt
   * `start`, stops after the first attempt `j` with `ok(j)`, and gives up
   * after `fuel` attempts.
   */
  function AttemptsFrom(ok: nat -> bool, start: nat, fuel: nat): (n: nat)
    decreases fuel
    ensures start <= n <= start + fuel
    ensures forall j :: start <= j < n - 1 ==> !ok(j)
    ensures n == start + fuel || (start < n && ok(n - 1))
  {
    if fuel == 0 then start
    else if ok(start) then start + 1
    else AttemptsFrom(ok, start + 1, fuel - 1)
  }

  /** The exit test of the analyzer's loop: the aggregator is among the responders. */
  predicate AggregatorAnswered(sdk: Sdk, attempt: nat)
  {
    sdk.aggregatorId in sdk.readyReplies(attempt)
  }

  /** The exit test of the aggregator's loop: one attempt got as many responders as there are participants. */
  predicate AllCounted(sdk: Sdk, attempt: nat)
  {
    |sdk.readyReplies(attempt)| == |sdk.participantIds|
  }

  /**
   * The analyzer's variant. It returns only after an attempt whose
   * responders include the aggregator, so the "Could not contact
   * aggregator" raise after the loop cannot happen: the only way not to be
   * ready is to run out of attempts.
   */
  method AnalyzerReadyCheck(sdk: Sdk, fuel: nat) returns (ready: bool, attempts: nat, log: seq<Event>)
    ensures attempts == AttemptsFrom((a: nat) => AggregatorAnswered(sdk, a), 0, fuel)
    ensures ready <==> 0 < attempts && AggregatorAnswered(sdk, attempts - 1)
    ensures forall j :: 0 <= j < attempts - 1 ==> !AggregatorAnswered(sdk, j)
    ensures !ready ==> attempts == fuel
    ensures log == ReadyChecks([sdk.aggregatorId], attempts)
  {
    var received: seq<NodeId> := [];
    attempts, log := 0, [];
    while sdk.aggregatorId !in received && attempts < fuel
      invariant attempts <= fuel
      invariant received == if attempts == 0 then [] else sdk.readyReplies(attempts - 1)
      invariant forall j :: 0 <= j < attempts - 1 ==> !AggregatorAnswered(sdk, j)
      invariant log == ReadyChecks([sdk.aggregatorId], attempts)
    {
      log := log + [ReadyCheckSend([sdk.aggregatorId])];
      received := sdk.readyReplies(attempts);
      attempts := attempts + 1;
    }
    ready := sdk.aggregatorId in received;
    AttemptsUnique((a: nat) => AggregatorAnswered(sdk, a), fuel, attempts);
  }

  /** `num_responses` before attempt `j`: 0 at first, then the previous attempt's responder count. */
  function CountBefore(sdk: Sdk, j: nat): nat
  {
    if j == 0 then 0 else |sdk.readyReplies(j - 1)|
  }

  /**
   * The counts printed before the first `n` attempts: before each attempt
   * the count is printed when it exceeds the last one printed (at first,
   * anything exceeds the -1 that `latest_num_responses` starts at).
   */
  function Printed(sdk: Sdk, n: nat): seq<nat>
  {
    if n == 0 then []
    else
      var p := Printed(sdk, n - 1);
      if p == [] || p[|p| - 1] < CountBefore(sdk, n - 1) then p + [CountBefore(sdk, n - 1)] else p
  }

  /**
   * The aggregator's variant. It returns only after a single attempt whose
   * responder count equals the number of participants; responders of
   * earlier attempts are not carried over. Before each attempt it prints
   * the previous attempt's count when that count is larger than anything
   * printed so far: `progress` is the list of printed counts.
   */
  method AggregatorReadyCheck(sdk: Sdk, fuel: nat)
    returns (ready: bool, attempts: nat, progress: seq<nat>, log: seq<Event>)
    ensures attempts == AttemptsFrom((a: nat) => AllCounted(sdk, a), 0, fuel)
    ensures ready <==> 0 < attempts && AllCounted(sdk, attempts - 1)
    ensures forall j :: 0 <= j < attempts - 1 ==> !AllCounted(sdk, j)
    ensures !ready ==> attempts == fuel
    ensures log == ReadyChecks(sdk.participantIds, attempts)
    ensures progress == Printed(sdk, attempts)
  {
    var ids := sdk.participantIds;
    var latest: int, count: nat := -1, 0;
    ready, attempts, progress, log := false, 0, [], [];
    while !ready && attempts < fuel
      invariant attempts <= fuel
      invariant ready ==> 0 < attempts && AllCounted(sdk, attempts - 1)
      invariant forall j :: 0 <= j < attempts - 1 ==> !AllCounted(sdk, j)
      invariant !ready && 0 < attempts ==> !AllCounted(sdk, attempts - 1)
      invariant log == ReadyChecks(ids, attempts)
      invariant count == if attempts == 0 then 0 else |sdk.readyReplies(attempts - 1)|
      invariant attempts == 0 <==> progress == []
      invariant progress == Printed(sdk, attempts)
      invariant latest == if progress == [] then -1 else progress[|progress| - 1]
    {
      if latest < count {
        latest := count;
        progress := progress + [count];
      }
      log := log + [ReadyCheckSend(ids)];
      var received := sdk.readyReplies(attempts);
      attempts := attempts + 1;
      count := |received|;
      if count == |ids| {
        ready := true;
      }
    }
    AttemptsUnique((a: nat) => AllCounted(sdk, a), fuel, attempts);
  }

  /**
   * The printed counts are the running maxima of the counts: 0 first, then
   * strictly increasing, each an earlier attempt's count, the last one at
   * least every earlier attempt's count.
   */
  lemma {:induction false} PrintedRunningMaxima(sdk: Sdk, n: nat)
    ensures var p := Printed(sdk, n);
            (0 < n <==> 0 < |p|)
            && (0 < n ==> p[0] == 0)
            && (forall a, b :: 0 <= a < b < |p| ==> p[a] < p[b])
            && (forall a :: 0 < a < |p| ==> exists j :: 0 <= j < n - 1 && p[a] == |sdk.readyReplies(j)|)
            && (forall j :: 0 <= j < n - 1 ==> |sdk.readyReplies(j)| <= p[|p| - 1])
  {
    if 1 < n {
      PrintedRunningMaxima(sdk, n - 1);
      var p, c := Printed(sdk, n - 1), CountBefore(sdk, n - 1);
      assert c == |sdk.readyReplies(n - 2)|;
      if p[|p| - 1] < c {
        var q := p + [c];
        assert Printed(sdk, n) == q;
        forall a | 0 < a < |q| ensures exists j :: 0 <= j < n - 1 && q[a] == |sdk.readyReplies(j)| {
          if a == |p| {
            assert q[a] == |sdk.readyReplies(n - 2)|;
          } else {
            var j :| 0 <= j < n - 2 && p[a] == |sdk.readyReplies(j)|;
            assert q[a] == |sdk.readyReplies(j)|;
          }
        }
      } else {
        forall a | 0 < a < |p| ensures exists j :: 0 <= j < n - 1 && p[a] == |sdk.readyReplies(j)| {
          var j :| 0 <= j < n - 2 && p[a] == |sdk.readyReplies(j)|;
        }
      }
    }
  }

  /** `AttemptsFrom` is the only count that fits a stopped retry loop. */
  lemma AttemptsUnique(ok: nat -> bool, fuel: nat, n: nat)
    requires n <= fuel
    requires forall j :: 0 <= j < n - 1 ==> !ok(j)
    requires n == fuel || (0 < n && ok(n - 1))
    ensures n == AttemptsFrom(ok, 0, fuel)
  {
  }

  /** `_wait_until_partners_ready`: the branch is taken on the node's own role. */
  method WaitUntilPartnersReady(sdk: Sdk, fuel: nat) returns (ready: bool, attempts: nat, log: seq<Event>)
    ensures sdk.role == "default" ==>
              attempts == AttemptsFrom((a: nat) => AggregatorAnswered(sdk, a), 0, fuel)
              && log == ReadyChecks([sdk.aggregatorId], attempts)
              && (ready <==> 0 < attempts && AggregatorAnswered(sdk, attempts - 1))
    ensures sdk.role != "default" ==>
              attempts == AttemptsFrom((a: nat) => AllCounted(sdk, a), 0, fuel)
              && log == ReadyChecks(sdk.participantIds, attempts)
              && (ready <==> 0 < attempts && AllCounted(sdk, attempts - 1))
    ensures !ready ==> attempts == fuel
  {
    if sdk.role == "default" {
      ready, attempts, log := AnalyzerReadyCheck(sdk, fuel);
    } else {
      var progress;
      ready, attempts, progress, log := AggregatorReadyCheck(sdk, fuel);
    }
  }

  /** No id occurs twice. */
  predicate Distinct(s: seq<NodeId>)
  {
    forall a, b :: 0 <= a < b < |s| ==> s[a] != s[b]
  }

  lemma DistinctCard(s: seq<NodeId>)
    requires Distinct(s)
    ensures |set x | x in s| == |s|
  {
    if s != [] {
      var t := s[1..];
      assert Distinct(t);
      DistinctCard(t);
      assert (set x | x in s) == (set x | x in t) + {s[0]};
      assert s[0] !in (set x | x in t);
    }
  }

  lemma SubsetCard(a: set<NodeId>, b: set<NodeId>)
    requires a <= b && |a| == |b|
    ensures a == b
  {
    assert b == a + (b - a);
    assert a * (b - a) == {};
    assert |b - a| == 0;
  }

  /**
   * When the responders of an attempt are distinct participants and the
   * participants are distinct, the count test of the aggregator's loop
   * holds exactly when every participant answered in that attempt.
   */
  lemma {:induction false} CountMeansEveryone(ids: seq<NodeId>, replied: seq<NodeId>)
    requires Distinct(ids) && Distinct(replied)
    requires forall r :: r in replied ==> r in ids
    ensures |replied| == |ids| <==> forall id :: id in ids ==> id in replied
  {
    var a, b := set x | x in replied, set x | x in ids;
    DistinctCard(ids);
    DistinctCard(replied);
    assert a <= b;
    if |replied| == |ids| {
      SubsetCard(a, b);
      assert forall id :: id in ids ==> id in b;
    }
    if forall id :: id in ids ==> id in replied {
      assert a == b;
    }
  }
}
