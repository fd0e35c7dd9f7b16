/**
 * The aggregator's round loop (the `while not self.converged()` loop of
 * `start_aggregator` and the `node_finished` call after it).
 *
 * Each round reads the finished flag; if it is still false the aggregator
 * awaits `intermediate_results` from its partners, and only when every
 * partner has answered does it aggregate the latest result of each and
 * then either submit the final result and mark the analysis finished, or
 * broadcast the aggregate to the partners. `AggregatorRun` is that loop
 * as a function of the oracles; `AggregatorLoop` is the loop itself, and
 * the lemmas state what every run's log looks like.
 */
module AggregatorRounds {
  import opened Wrappers
  import opened Flame
  import Utf8
  import opened RoundLoop

  /**
   * An aggregation strategy object: the partners it serves, its `aggregate`
   * method (given the round, the node results and the simple_analysis flag;
   * the round stands in for whatever state the object keeps), and how
   * `str()` renders its results.
   */
  datatype Aggregation = Aggregation(
    partnerIds: seq<NodeId>,
    aggregate: (nat, seq<string>, bool) -> (Value, bool),
    str: Value -> string)

  /** Python truthiness of a response entry: not None and not an empty list. */
  predicate Answered(entry: Option<seq<Message>>)
  {
    entry.Some? && |entry.value| > 0
  }

  /** The barrier test `all(node_response_dict.values())`. */
  predicate AllAnswered(responses: Responses)
  {
    forall k :: 0 <= k < |responses| ==> Answered(responses[k].1)
  }

  /** The last message of an answered entry. */
  function Latest(entry: Option<seq<Message>>): Message
    requires Answered(entry)
  {
    entry.value[|entry.value| - 1]
  }

  /**
   * `[response[-1].body['result'] for response in ...]`: the "result" of
   * the latest message of every entry, in dictionary order, or None when
   * one of those messages has no "result" (a KeyError).
   */
  function LatestResults(responses: Responses): (r: Option<seq<string>>)
    requires AllAnswered(responses)
    ensures r.Some? <==> forall k :: 0 <= k < |responses| ==> "result" in Latest(responses[k].1).body
    ensures r.Some? ==> |r.value| == |responses|
    ensures r.Some? ==> forall k :: 0 <= k < |responses| ==> r.value[k] == Latest(responses[k].1).body["result"]
  {
    if responses == [] then Some([])
    else
      var body := Latest(responses[0].1).body;
      if "result" !in body then None
      else match LatestResults(responses[1..])
        case None => None
        case Some(rest) => Some([body["result"]] + rest)
  }

  function Poll(agg: Aggregation, responses: Responses): Event
  {
    Await(agg.partnerIds, IntermediateResults, None, responses)
  }

  /** The payload handed to submit_final_result: the UTF-8 bytes of str(result). */
  function FinalPayload(agg: Aggregation, result: Value): seq<bv8>
  {
    Utf8.Encode(agg.str(result))
  }

  function Broadcast(agg: Aggregation, result: Value): Event
  {
    Send(agg.partnerIds, AggregatedResults, ResultBody(agg.str(result)), None)
  }

  /** The body of the loop in round `i`, once the finished flag read false. */
  function AggregatorRound(sdk: Sdk, agg: Aggregation, simple: bool, i: nat): Round<()>
  {
    var responses := sdk.responses(i);
    var polled := [Poll(agg, responses)];
    if !AllAnswered(responses) then Round(polled, (), None)
    else match LatestResults(responses)
      case None => Round(polled, (), Some(KeyError))
      case Some(results) =>
        var (result, converged) := agg.aggregate(i, results, simple);
        var aggregated := polled + [Aggregate(results, simple, result, converged)];
        if converged then Round(aggregated + [Submit(FinalPayload(agg, result)), AnalysisFinished], (), None)
        else Round(aggregated + [Broadcast(agg, result)], (), None)
  }

  /** The loop body as `Loop` takes it: the aggregator keeps no loop variables. */
  function Body(sdk: Sdk, agg: Aggregation, simple: bool): ((), nat) -> Round<()>
  {
    (u: (), i: nat) => AggregatorRound(sdk, agg, simple, i)
  }

  /** The loop of `start_aggregator`, with at most `fuel` reads of the finished flag. */
  function AggregatorRun(sdk: Sdk, agg: Aggregation, simple: bool, fuel: nat): (Outcome, seq<Event>)
  {
    Loop(sdk.finished, Body(sdk, agg, simple), (), 0, fuel)
  }

  /** One pass through the body of the loop, once the finished flag read false. */
  method AggregatorRoundStep(sdk: Sdk, agg: Aggregation, simple: bool, round: nat)
    returns (events: seq<Event>, raised: Option<Exception>)
    ensures Round(events, (), raised) == AggregatorRound(sdk, agg, simple, round)
  {
    var responses := sdk.responses(round);
    events, raised := [Poll(agg, responses)], None;
    if AllAnswered(responses) {
      var results := LatestResults(responses);
      if results.None? {
        return events, Some(KeyError);
      }
      var aggregated := agg.aggregate(round, results.value, simple);
      var result, converged := aggregated.0, aggregated.1;
      events := events + [Aggregate(results.value, simple, result, converged)];
      if converged {
        events := events + [Submit(FinalPayload(agg, result)), AnalysisFinished];
      } else {
        events := events + [Broadcast(agg, result)];
      }
    }
  }

  /** The round loop of `start_aggregator`, followed by `node_finished`. */
  method AggregatorLoop(sdk: Sdk, agg: Aggregation, simple: bool, fuel: nat) returns (outcome: Outcome, log: seq<Event>)
    ensures (outcome, log) == AggregatorRun(sdk, agg, simple, fuel)
  {
    ghost var body := Body(sdk, agg, simple);
    ghost var total := AggregatorRun(sdk, agg, simple, fuel);
    log := [];
    var round: nat, left: nat := 0, fuel;
    while 0 < left
      invariant total.0 == Loop(sdk.finished, body, (), round, left).0
      invariant total.1 == log + Loop(sdk.finished, body, (), round, left).1
    {
      if sdk.finished(round) {
        log := log + [CheckFinished(true), NodeFinished];
        return Done, log;
      }
      var events, raised := AggregatorRoundStep(sdk, agg, simple, round);
      if raised.Some? {
        LoopRaises(sdk.finished, body, (), round, left, log, events, (), raised.value);
        log := log + ([CheckFinished(false)] + events);
        return Raised(raised.value), log;
      }
      LoopContinues(sdk.finished, body, (), round, left, log, events, ());
      log := log + ([CheckFinished(false)] + events);
      round, left := round + 1, left - 1;
    }
    assert log + [] == log;
    outcome := Running;
  }

  /** What a complete round leaves in the log: a poll, then possibly an aggregation and its branch. */
  lemma RoundShape(sdk: Sdk, agg: Aggregation, simple: bool, u: (), i: nat)
    ensures var pre, responses := RoundLog(Body(sdk, agg, simple), u, i), sdk.responses(i);
            |pre| >= 2 && pre[0] == CheckFinished(false) && pre[1] == Poll(agg, responses)
            && (|pre| == 2 <==> !AllAnswered(responses) || LatestResults(responses).None?)
            && (|pre| > 2 ==>
                  AllAnswered(responses) && LatestResults(responses).Some?
                  && var results := LatestResults(responses).value;
                     var (result, converged) := agg.aggregate(i, results, simple);
                     pre[2] == Aggregate(results, simple, result, converged)
                     && if converged then |pre| == 5 && pre[3] == Submit(FinalPayload(agg, result)) && pre[4] == AnalysisFinished
                        else |pre| == 4 && pre[3] == Broadcast(agg, result))
  {
  }

  /*
   * The properties below relate neighbouring events. Each is stated for
   * every pair (j, k) with k == j + 1, so that Dafny never has to look
   * at an event to the left or right of one it was asked about.
   */

  /** The barrier: every aggregation follows a poll that every partner answered and uses its latest results. */
  ghost predicate BarrierKept(log: seq<Event>, simple: bool)
  {
    (0 < |log| ==> !log[0].Aggregate?)
    && forall j, k {:trigger log[j], log[k]} :: 0 <= j < k < |log| && k == j + 1 ==>
         (log[k].Aggregate? ==>
            log[j].Await? && AllAnswered(log[j].responses)
            && LatestResults(log[j].responses) == Some(log[k].nodeResults)
            && log[k].simpleAnalysis == simple)
  }

  /** Every poll goes to the partners after a false flag read; an incomplete one is followed by the next read. */
  ghost predicate RepollKept(log: seq<Event>, agg: Aggregation)
  {
    (forall k {:trigger log[k]} :: 0 <= k < |log| && log[k].Await? ==> log[k] == Poll(agg, log[k].responses))
    && (0 < |log| ==> !log[0].Await?)
    && forall j, k {:trigger log[j], log[k]} :: 0 <= j < k < |log| && k == j + 1 ==>
         (log[k].Await? ==> log[j] == CheckFinished(false))
         && (log[j].Await? && !AllAnswered(log[j].responses) ==> log[k].CheckFinished?)
  }

  /**
   * Every aggregation is followed by exactly one branch, and the branch by
   * the next flag read: a converged aggregation by the submission of its
   * result and then analysis_finished, any other by the broadcast of its
   * result. A log does not stop inside a branch.
   */
  ghost predicate BranchKept(log: seq<Event>, agg: Aggregation)
  {
    (0 < |log| ==> !log[|log| - 1].Aggregate? && !log[|log| - 1].Submit?)
    && forall j, k {:trigger log[j], log[k]} :: 0 <= j < k < |log| && k == j + 1 ==>
         (log[j].Aggregate? && log[j].converged ==> log[k] == Submit(FinalPayload(agg, log[j].result)))
         && (log[j].Aggregate? && !log[j].converged ==> log[k] == Broadcast(agg, log[j].result))
         && (log[j].Submit? ==> log[k] == AnalysisFinished)
         && (log[j].AnalysisFinished? || log[j].Send? ==> log[k].CheckFinished?)
  }

  /** Submissions, finish signals and sends happen only as the branch of the aggregation before them. */
  ghost predicate EffectsKept(log: seq<Event>)
  {
    (0 < |log| ==> !log[0].Submit? && !log[0].AnalysisFinished? && !log[0].Send?)
    && forall j, k {:trigger log[j], log[k]} :: 0 <= j < k < |log| && k == j + 1 ==>
         (log[k].Submit? ==> log[j].Aggregate? && log[j].converged)
         && (log[k].AnalysisFinished? ==> log[j].Submit?)
         && (log[k].Send? ==> log[j].Aggregate? && !log[j].converged)
  }

  /** The barrier survives appending a log that starts with a flag read. */
  lemma AppendBarrier(pre: seq<Event>, rest: seq<Event>, simple: bool)
    requires StartsWithCheck(rest)
    requires BarrierKept(pre, simple) && BarrierKept(rest, simple)
    ensures BarrierKept(pre + rest, simple)
  {
    Concat(pre, rest);
    var log := pre + rest;
    forall j, k | 0 <= j < k < |log| && k == j + 1 && log[k].Aggregate?
      ensures log[j].Await? && AllAnswered(log[j].responses)
              && LatestResults(log[j].responses) == Some(log[k].nodeResults)
              && log[k].simpleAnalysis == simple
    {
      if k < |pre| {
        assert log[j] == pre[j] && log[k] == pre[k];
      } else if |pre| <= j {
        assert log[j] == rest[j - |pre|] && log[k] == rest[k - |pre|];
      }
    }
  }

  lemma AppendRepoll(pre: seq<Event>, rest: seq<Event>, agg: Aggregation)
    requires StartsWithCheck(rest)
    requires RepollKept(pre, agg) && RepollKept(rest, agg)
    ensures RepollKept(pre + rest, agg)
  {
    Concat(pre, rest);
    var log := pre + rest;
    forall k | 0 <= k < |log| && log[k].Await?
      ensures log[k] == Poll(agg, log[k].responses)
    {
      if k < |pre| {
        assert log[k] == pre[k];
      } else {
        assert log[k] == rest[k - |pre|];
      }
    }
  }

  lemma AppendBranch(pre: seq<Event>, rest: seq<Event>, agg: Aggregation)
    requires StartsWithCheck(rest)
    requires BranchKept(pre, agg) && BranchKept(rest, agg)
    ensures BranchKept(pre + rest, agg)
  {
    Concat(pre, rest);
  }

  lemma AppendEffects(pre: seq<Event>, rest: seq<Event>)
    requires StartsWithCheck(rest)
    requires EffectsKept(pre) && EffectsKept(rest)
    ensures EffectsKept(pre + rest)
  {
    Concat(pre, rest);
  }

  /** With no partners the barrier passes at once and `aggregate` is given no node results. */
  lemma EmptyBarrierPasses(sdk: Sdk, agg: Aggregation, simple: bool, u: (), i: nat)
    requires sdk.responses(i) == []
    ensures var pre := RoundLog(Body(sdk, agg, simple), u, i);
            |pre| > 2 && pre[2].Aggregate? && pre[2].nodeResults == []
            && pre[2] == Aggregate([], simple, agg.aggregate(i, [], simple).0, agg.aggregate(i, [], simple).1)
  {
    RoundShape(sdk, agg, simple, u, i);
  }

  lemma RoundBarrier(sdk: Sdk, agg: Aggregation, simple: bool, u: (), i: nat)
    ensures BarrierKept(RoundLog(Body(sdk, agg, simple), u, i), simple)
  {
    RoundShape(sdk, agg, simple, u, i);
  }

  lemma RoundRepoll(sdk: Sdk, agg: Aggregation, simple: bool, u: (), i: nat)
    ensures RepollKept(RoundLog(Body(sdk, agg, simple), u, i), agg)
  {
    RoundShape(sdk, agg, simple, u, i);
  }

  lemma RoundBranch(sdk: Sdk, agg: Aggregation, simple: bool, u: (), i: nat)
    ensures BranchKept(RoundLog(Body(sdk, agg, simple), u, i), agg)
  {
    RoundShape(sdk, agg, simple, u, i);
  }

  lemma RoundEffects(sdk: Sdk, agg: Aggregation, simple: bool, u: (), i: nat)
    ensures EffectsKept(RoundLog(Body(sdk, agg, simple), u, i))
  {
    RoundShape(sdk, agg, simple, u, i);
  }

  /** Every round does something: it polls at least. */
  lemma RoundsSpeak(sdk: Sdk, agg: Aggregation, simple: bool)
    ensures forall u, j :: Body(sdk, agg, simple)(u, j).events != []
  {
    forall u: (), j: nat ensures Body(sdk, agg, simple)(u, j).events != [] {
      RoundShape(sdk, agg, simple, u, j);
    }
  }

  /**
   * The barrier and the inputs of `aggregate`: in every run, an
   * aggregation comes right after a poll that every partner answered, and
   * its node results are the "result" of each partner's latest message, in
   * dictionary order.
   */
  lemma AggregateOnlyAfterFullBarrier(sdk: Sdk, agg: Aggregation, simple: bool, fuel: nat)
    ensures BarrierKept(AggregatorRun(sdk, agg, simple, fuel).1, simple)
  {
    var body := Body(sdk, agg, simple);
    RoundsSpeak(sdk, agg, simple);
    forall u: (), j: nat ensures BarrierKept(RoundLog(body, u, j), simple) {
      RoundBarrier(sdk, agg, simple, u, j);
    }
    forall u: (), j: nat, rest: seq<Event> | StartsWithCheck(rest) && BarrierKept(rest, simple)
      ensures BarrierKept(RoundLog(body, u, j) + rest, simple)
    {
      RoundBarrier(sdk, agg, simple, u, j);
      AppendBarrier(RoundLog(body, u, j), rest, simple);
    }
    LoopKeeps((u: (), log: seq<Event>) => BarrierKept(log, simple), sdk.finished, body, (), 0, fuel);
  }

  /**
   * In every run, polls go to the partners for intermediate_results with
   * no timeout, right after a false flag read; a poll that some partner
   * left unanswered is followed by the next flag read, so that round
   * aggregated, sent, submitted and finished nothing.
   */
  lemma IncompleteRoundOnlyRepolls(sdk: Sdk, agg: Aggregation, simple: bool, fuel: nat)
    ensures RepollKept(AggregatorRun(sdk, agg, simple, fuel).1, agg)
  {
    var body := Body(sdk, agg, simple);
    RoundsSpeak(sdk, agg, simple);
    forall u: (), j: nat ensures RepollKept(RoundLog(body, u, j), agg) {
      RoundRepoll(sdk, agg, simple, u, j);
    }
    forall u: (), j: nat, rest: seq<Event> | StartsWithCheck(rest) && RepollKept(rest, agg)
      ensures RepollKept(RoundLog(body, u, j) + rest, agg)
    {
      RoundRepoll(sdk, agg, simple, u, j);
      AppendRepoll(RoundLog(body, u, j), rest, agg);
    }
    LoopKeeps((u: (), log: seq<Event>) => RepollKept(log, agg), sdk.finished, body, (), 0, fuel);
  }

  /**
   * In every run, each aggregation is followed by exactly one branch and
   * then by the next round: on convergence the UTF-8 bytes of str(result)
   * are submitted and then the analysis is marked finished; otherwise
   * {'result': str(result)} is sent to all partners as aggregated_results.
   */
  lemma AggregationEndsInOneBranch(sdk: Sdk, agg: Aggregation, simple: bool, fuel: nat)
    ensures BranchKept(AggregatorRun(sdk, agg, simple, fuel).1, agg)
  {
    var body := Body(sdk, agg, simple);
    RoundsSpeak(sdk, agg, simple);
    forall u: (), j: nat ensures BranchKept(RoundLog(body, u, j), agg) {
      RoundBranch(sdk, agg, simple, u, j);
    }
    forall u: (), j: nat, rest: seq<Event> | StartsWithCheck(rest) && BranchKept(rest, agg)
      ensures BranchKept(RoundLog(body, u, j) + rest, agg)
    {
      RoundBranch(sdk, agg, simple, u, j);
      AppendBranch(RoundLog(body, u, j), rest, agg);
    }
    LoopKeeps((u: (), log: seq<Event>) => BranchKept(log, agg), sdk.finished, body, (), 0, fuel);
  }

  /**
   * In every run, a submission, a finish signal or a send happens only as
   * the branch of the aggregation just before it.
   */
  lemma EffectsOnlyAfterAggregation(sdk: Sdk, agg: Aggregation, simple: bool, fuel: nat)
    ensures EffectsKept(AggregatorRun(sdk, agg, simple, fuel).1)
  {
    var body := Body(sdk, agg, simple);
    RoundsSpeak(sdk, agg, simple);
    forall u: (), j: nat ensures EffectsKept(RoundLog(body, u, j)) {
      RoundEffects(sdk, agg, simple, u, j);
    }
    forall u: (), j: nat, rest: seq<Event> | StartsWithCheck(rest) && EffectsKept(rest)
      ensures EffectsKept(RoundLog(body, u, j) + rest)
    {
      RoundEffects(sdk, agg, simple, u, j);
      AppendEffects(RoundLog(body, u, j), rest);
    }
    LoopKeeps((u: (), log: seq<Event>) => EffectsKept(log), sdk.finished, body, (), 0, fuel);
  }

  /** A true read of the finished flag occurs only as the second-to-last event. */
  predicate TrueReadOnlyAtExit(log: seq<Event>)
  {
    forall k {:trigger log[k]} :: 0 <= k < |log| && log[k] == CheckFinished(true) ==> k == |log| - 2
  }

  /** A stretch of log without a true flag read. */
  predicate NoTrueRead(pre: seq<Event>)
  {
    forall k :: 0 <= k < |pre| ==> pre[k] != CheckFinished(true)
  }

  /** A round holds neither node_finished nor a true flag read. */
  lemma RoundQuiet(sdk: Sdk, agg: Aggregation, simple: bool, u: (), i: nat)
    ensures NoTrueRead(RoundLog(Body(sdk, agg, simple), u, i))
    ensures NoNodeFinished(Body(sdk, agg, simple)(u, i).events)
  {
    var pre := RoundLog(Body(sdk, agg, simple), u, i);
    RoundShape(sdk, agg, simple, u, i);
    forall k | 0 <= k < |pre| ensures !pre[k].NodeFinished? && pre[k] != CheckFinished(true) {
      if 2 <= k {
        var results := LatestResults(sdk.responses(i)).value;
        var (result, converged) := agg.aggregate(i, results, simple);
        assert pre[k] in [Aggregate(results, simple, result, converged), Submit(FinalPayload(agg, result)),
                          AnalysisFinished, Broadcast(agg, result)];
      }
    }
    assert Body(sdk, agg, simple)(u, i).events == pre[1..];
  }

  lemma AppendQuiet(pre: seq<Event>, rest: seq<Event>)
    requires NoTrueRead(pre) && TrueReadOnlyAtExit(rest)
    ensures TrueReadOnlyAtExit(pre + rest)
  {
    var log := pre + rest;
    forall k | 0 <= k < |log| && log[k] == CheckFinished(true)
      ensures k == |log| - 2
    {
      assert log[k] == rest[k - |pre|];
    }
  }

  /**
   * node_finished is called only when the loop ends normally, as its last
   * effect, right after a true read of the finished flag; a run that raised
   * or is still running has not called it. The finished flag reads true
   * nowhere else.
   */
  lemma NodeFinishedOnlyAtExit(sdk: Sdk, agg: Aggregation, simple: bool, fuel: nat)
    ensures var run := AggregatorRun(sdk, agg, simple, fuel);
            FinishesOnlyAtExit(run.0, run.1) && TrueReadOnlyAtExit(run.1)
  {
    var body := Body(sdk, agg, simple);
    forall u: (), j: nat ensures body(u, j).events != [] && NoNodeFinished(body(u, j).events) {
      RoundShape(sdk, agg, simple, u, j);
      RoundQuiet(sdk, agg, simple, u, j);
    }
    RoundLoop.NodeFinishedOnlyAtExit(sdk.finished, body, (), 0, fuel);
    forall u: (), j: nat ensures TrueReadOnlyAtExit(RoundLog(body, u, j)) {
      RoundQuiet(sdk, agg, simple, u, j);
      AppendQuiet(RoundLog(body, u, j), []);
      assert RoundLog(body, u, j) + [] == RoundLog(body, u, j);
    }
    forall u: (), j: nat, rest: seq<Event> | TrueReadOnlyAtExit(rest)
      ensures TrueReadOnlyAtExit(RoundLog(body, u, j) + rest)
    {
      RoundQuiet(sdk, agg, simple, u, j);
      AppendQuiet(RoundLog(body, u, j), rest);
    }
    LoopKeeps((u: (), log: seq<Event>) => TrueReadOnlyAtExit(log), sdk.finished, body, (), 0, fuel);
  }

  /** The loop raises only the KeyError of a latest message without a "result". */
  lemma RaisesOnlyKeyError(sdk: Sdk, agg: Aggregation, simple: bool, fuel: nat)
    ensures AggregatorRun(sdk, agg, simple, fuel).0.Raised? ==> AggregatorRun(sdk, agg, simple, fuel).0.exception == KeyError
  {
    RoundLoop.LoopRaisesOnly(sdk.finished, Body(sdk, agg, simple), (), 0, fuel, {KeyError});
  }
}
