/**
 * The analyzer's round loop (the `while not self.converged()` loop of
 * `start_analyzer` and the `node_finished` call after it).
 *
 * The analyzer keeps two variables across rounds: the latest aggregated
 * result it received (None at first) and its own convergence flag (False
 * at first). Each round reads the shared finished flag; while the
 * analyzer has not converged locally it analyzes its data and sends the
 * result to the aggregator; it then reads the finished flag a second
 * time, and when that read and its own flag are both false it waits for
 * the aggregator's next aggregated result.
 *
 * `AnalyzerRun` is that loop as a function of the oracles, `AnalyzerLoop`
 * is the loop itself, and `Replay` recomputes the two variables from a
 * log, which is how the lemmas say what the analyzer knew at each point.
 */
module AnalyzerRounds {
  import opened Wrappers
  import opened Flame
  import opened RoundLoop

  /** The timeout of the wait for aggregated results. */
  const AwaitTimeout: nat := 300

  /**
   * An analysis strategy object: its `analyze` method (given the round,
   * the data, the latest aggregated result and the simple_analysis flag;
   * the round stands in for whatever state the object keeps), and how
   * `str()` renders its results.
   */
  datatype Analysis = Analysis(
    analyze: (nat, Data, Option<string>, bool) -> (Value, bool),
    str: Value -> string)

  /** The loop's variables: `aggregator_results` and `converged`. */
  datatype AnalyzerState = AnalyzerState(aggregatorResults: Option<string>, converged: bool)

  const Initial := AnalyzerState(None, false)

  /** The entry of `node` in an awaited response dictionary, if it has one. */
  function Lookup(responses: Responses, node: NodeId): Option<Option<seq<Message>>>
  {
    if responses == [] then None
    else if responses[0].0 == node then Some(responses[0].1)
    else Lookup(responses[1..], node)
  }

  /** The lookup finds the first entry of `node`, and finds nothing only when there is none. */
  lemma {:induction false} LookupFindsFirst(responses: Responses, node: NodeId)
    ensures var r := Lookup(responses, node);
            (r.None? <==> forall k :: 0 <= k < |responses| ==> responses[k].0 != node)
            && (r.Some? ==> exists k :: 0 <= k < |responses| && responses[k] == (node, r.value)
                                        && forall j :: 0 <= j < k ==> responses[j].0 != node)
  {
    if responses != [] && responses[0].0 != node {
      var tail := responses[1..];
      LookupFindsFirst(tail, node);
      if Lookup(tail, node).Some? {
        var k :| 0 <= k < |tail| && tail[k] == (node, Lookup(tail, node).value)
                 && forall j :: 0 <= j < k ==> tail[j].0 != node;
        assert responses[k + 1] == tail[k];
        assert forall j :: 0 < j < k + 1 ==> responses[j] == tail[j - 1];
      }
      assert forall k :: 0 < k < |responses| ==> responses[k] == tail[k - 1];
    }
  }

  /**
   * `responses[aggregator_id][-1].body['result']`: the "result" of the
   * latest message from the aggregator, or the exception Python raises
   * on the way to it.
   */
  function AggregatedResult(responses: Responses, aggregatorId: NodeId): (r: Result<string>)
    ensures r.Raise? ==> !r.exception.ConnectError? && !r.exception.BrokenPipe?
  {
    match Lookup(responses, aggregatorId)
    case None => Raise(KeyError)
    case Some(None) => Raise(TypeError)
    case Some(Some(messages)) =>
      if messages == [] then Raise(IndexError)
      else
        var body := messages[|messages| - 1].body;
        if "result" in body then Ok(body["result"]) else Raise(KeyError)
  }

  /**
   * The wait's answer yields a result exactly when the aggregator has an
   * entry holding at least one message whose latest one has a "result",
   * and that "result" is the answer; otherwise it raises KeyError for a
   * missing entry or key, TypeError for a None entry and IndexError for an
   * empty one.
   */
  lemma AggregatedResultCases(responses: Responses, aggregatorId: NodeId)
    ensures var r, entry := AggregatedResult(responses, aggregatorId), Lookup(responses, aggregatorId);
            (entry.None? ==> r == Raise(KeyError))
            && (entry == Some(None) ==> r == Raise(TypeError))
            && (entry == Some(Some([])) ==> r == Raise(IndexError))
            && (r.Ok? <==> entry.Some? && entry.value.Some? && entry.value.value != []
                           && "result" in Last(entry.value.value).body)
            && (r.Ok? ==> r.value == Last(entry.value.value).body["result"])
            && (r.Raise? && entry.Some? && entry.value.Some? && entry.value.value != [] ==> r == Raise(KeyError))
  {
  }

  function Last(messages: seq<Message>): Message
    requires messages != []
  {
    messages[|messages| - 1]
  }

  /** The send of an intermediate result to the aggregator. */
  function Intermediate(aggregatorId: NodeId, text: string): Event
  {
    Send([aggregatorId], IntermediateResults, ResultBody(text), None)
  }

  /** The wait for aggregated results from the aggregator. */
  function AwaitAggregator(aggregatorId: NodeId, responses: Responses): Event
  {
    Await([aggregatorId], AggregatedResults, Some(AwaitTimeout), responses)
  }

  /** The body of the loop in round `i`, once the first read of the finished flag was false. */
  function AnalyzerRound(sdk: Sdk, an: Analysis, data: Data, simple: bool, st: AnalyzerState, i: nat): Round<AnalyzerState>
  {
    var id := sdk.aggregatorId;
    var (analyzed, st1) :=
      if st.converged then ([], st)
      else
        var (result, converged) := an.analyze(i, data, st.aggregatorResults, simple);
        ([Analyze(data, st.aggregatorResults, simple, result, converged), Intermediate(id, an.str(result))],
         AnalyzerState(st.aggregatorResults, converged));
    var finished := sdk.finished(2 * i + 1);
    if finished || st1.converged then Round(analyzed + [CheckFinished(finished)], st1, None)
    else
      var responses := sdk.responses(i);
      var waited := analyzed + [CheckFinished(false), AwaitAggregator(id, responses)];
      match AggregatedResult(responses, id)
      case Ok(text) => Round(waited, AnalyzerState(Some(text), false), None)
      case Raise(e) => Round(waited, st1, Some(e))
  }

  /** The loop body as `Loop` takes it, over the loop's variables. */
  function Body(sdk: Sdk, an: Analysis, data: Data, simple: bool): (AnalyzerState, nat) -> Round<AnalyzerState>
  {
    (st: AnalyzerState, i: nat) => AnalyzerRound(sdk, an, data, simple, st, i)
  }

  /** Round `i` reads the finished flag twice, as reads `2i` (the loop test) and `2i + 1`. */
  function LoopTests(sdk: Sdk): nat -> bool
  {
    (i: nat) => sdk.finished(2 * i)
  }

  /** The loop of `start_analyzer`, with at most `fuel` rounds. */
  function AnalyzerRun(sdk: Sdk, an: Analysis, data: Data, simple: bool, fuel: nat): (Outcome, seq<Event>)
  {
    Loop(LoopTests(sdk), Body(sdk, an, data, simple), Initial, 0, fuel)
  }

  /** One pass through the body of the loop, once the first read of the finished flag was false. */
  method AnalyzerRoundStep(sdk: Sdk, an: Analysis, data: Data, simple: bool, st: AnalyzerState, round: nat)
    returns (events: seq<Event>, next: AnalyzerState, raised: Option<Exception>)
    ensures Round(events, next, raised) == AnalyzerRound(sdk, an, data, simple, st, round)
  {
    var id := sdk.aggregatorId;
    var aggregatorResults, converged := st.aggregatorResults, st.converged;
    events, raised := [], None;
    if !converged {
      var analyzed := an.analyze(round, data, aggregatorResults, simple);
      var result := analyzed.0;
      converged := analyzed.1;
      events := events + [Analyze(data, aggregatorResults, simple, result, converged)];
      events := events + [Intermediate(id, an.str(result))];
    }
    var finished := sdk.finished(2 * round + 1);
    events := events + [CheckFinished(finished)];
    if !finished && !converged {
      var responses := sdk.responses(round);
      events := events + [AwaitAggregator(id, responses)];
      var text := AggregatedResult(responses, id);
      if text.Raise? {
        return events, AnalyzerState(aggregatorResults, converged), Some(text.exception);
      }
      aggregatorResults := Some(text.value);
    }
    next := AnalyzerState(aggregatorResults, converged);
  }

  /** The round loop of `start_analyzer`, followed by `node_finished`. */
  method AnalyzerLoop(sdk: Sdk, an: Analysis, data: Data, simple: bool, fuel: nat)
    returns (outcome: Outcome, log: seq<Event>)
    ensures (outcome, log) == AnalyzerRun(sdk, an, data, simple, fuel)
  {
    ghost var body, tests := Body(sdk, an, data, simple), LoopTests(sdk);
    ghost var total := AnalyzerRun(sdk, an, data, simple, fuel);
    log := [];
    var st := Initial;
    var round: nat, left: nat := 0, fuel;
    while 0 < left
      invariant total.0 == Loop(tests, body, st, round, left).0
      invariant total.1 == log + Loop(tests, body, st, round, left).1
    {
      if sdk.finished(2 * round) {
        log := log + [CheckFinished(true), NodeFinished];
        return Done, log;
      }
      var events, next, raised := AnalyzerRoundStep(sdk, an, data, simple, st, round);
      if raised.Some? {
        LoopRaises(tests, body, st, round, left, log, events, next, raised.value);
        log := log + ([CheckFinished(false)] + events);
        return Raised(raised.value), log;
      }
      LoopContinues(tests, body, st, round, left, log, events, next);
      log := log + ([CheckFinished(false)] + events);
      st, round, left := next, round + 1, left - 1;
    }
    assert log + [] == log;
    outcome := Running;
  }

  /** What a round leaves in the log, and the variables after it. */
  lemma RoundShape(sdk: Sdk, an: Analysis, data: Data, simple: bool, st: AnalyzerState, i: nat)
    ensures var round, pre, id := AnalyzerRound(sdk, an, data, simple, st, i), RoundLog(Body(sdk, an, data, simple), st, i), sdk.aggregatorId;
            var finished := sdk.finished(2 * i + 1);
            |pre| >= 2 && pre[0] == CheckFinished(false)
            && if st.converged then
                 pre == [CheckFinished(false), CheckFinished(finished)] && round.raised.None? && round.state == st
               else
                 var (result, converged) := an.analyze(i, data, st.aggregatorResults, simple);
                 |pre| >= 4
                 && pre[1] == Analyze(data, st.aggregatorResults, simple, result, converged)
                 && pre[2] == Intermediate(id, an.str(result))
                 && pre[3] == CheckFinished(finished)
                 && if finished || converged then
                      |pre| == 4 && round.raised.None? && round.state == AnalyzerState(st.aggregatorResults, converged)
                    else
                      var text := AggregatedResult(sdk.responses(i), id);
                      |pre| == 5 && pre[4] == AwaitAggregator(id, sdk.responses(i))
                      && (round.raised.None? <==> text.Ok?)
                      && (text.Ok? ==> round.state == AnalyzerState(Some(text.value), false))
  {
  }

  /** How one event changes the loop's variables. */
  function Apply(id: NodeId, st: AnalyzerState, e: Event): AnalyzerState
  {
    match e
    case Analyze(_, _, _, _, converged) => AnalyzerState(st.aggregatorResults, converged)
    case Await(_, _, _, responses) =>
      (match AggregatedResult(responses, id)
       case Ok(text) => AnalyzerState(Some(text), st.converged)
       case Raise(_) => st)
    case _ => st
  }

  /** The loop's variables after the events of `log`, starting from `st`. */
  function Replay(id: NodeId, st: AnalyzerState, log: seq<Event>): AnalyzerState
    decreases |log|
  {
    if log == [] then st else Replay(id, Apply(id, st, log[0]), log[1..])
  }

  lemma {:induction false} ReplayAppend(id: NodeId, st: AnalyzerState, a: seq<Event>, b: seq<Event>)
    ensures Replay(id, st, a + b) == Replay(id, Replay(id, st, a), b)
    decreases |a|
  {
    if a == [] {
      assert a + b == b;
    } else {
      assert (a + b)[0] == a[0] && (a + b)[1..] == a[1..] + b;
      ReplayAppend(id, Apply(id, st, a[0]), a[1..], b);
    }
  }

  /** Events other than analyses and waits leave the variables alone. */
  lemma {:induction false} ReplayNeutral(id: NodeId, st: AnalyzerState, log: seq<Event>)
    requires forall k :: 0 <= k < |log| ==> !log[k].Analyze? && !log[k].Await?
    ensures Replay(id, st, log) == st
    decreases |log|
  {
    if log != [] {
      ReplayNeutral(id, st, log[1..]);
    }
  }

  lemma ReplayOne(id: NodeId, st: AnalyzerState, e: Event)
    ensures Replay(id, st, [e]) == Apply(id, st, e)
  {
    assert [e][0] == e && [e][1..] == [];
  }

  /** The variables at each point of a round that analyzed. */
  lemma RoundPrefixReplay(sdk: Sdk, an: Analysis, data: Data, simple: bool, st: AnalyzerState, i: nat)
    ensures var pre, id := RoundLog(Body(sdk, an, data, simple), st, i), sdk.aggregatorId;
            Replay(id, st, pre[..1]) == st
            && (!st.converged ==>
                  var analyzed := AnalyzerState(st.aggregatorResults, pre[1].converged);
                  pre[1].Analyze? && Replay(id, st, pre[..2]) == analyzed
                  && Replay(id, st, pre[..4]) == analyzed)
  {
    RoundShape(sdk, an, data, simple, st, i);
    var pre, id := RoundLog(Body(sdk, an, data, simple), st, i), sdk.aggregatorId;
    assert pre[..1] == [pre[0]];
    ReplayOne(id, st, pre[0]);
    if !st.converged {
      var analyzed := Apply(id, st, pre[1]);
      assert pre[..2] == [pre[0]] + [pre[1]];
      ReplayAppend(id, st, [pre[0]], [pre[1]]);
      ReplayOne(id, st, pre[1]);
      assert pre[..4] == pre[..2] + pre[2..4];
      ReplayAppend(id, st, pre[..2], pre[2..4]);
      ReplayNeutral(id, analyzed, pre[2..4]);
    }
  }

  /** Replaying a round gives the variables the round leaves behind. */
  lemma RoundReplay(sdk: Sdk, an: Analysis, data: Data, simple: bool, st: AnalyzerState, i: nat)
    requires AnalyzerRound(sdk, an, data, simple, st, i).raised.None?
    ensures Replay(sdk.aggregatorId, st, RoundLog(Body(sdk, an, data, simple), st, i))
            == AnalyzerRound(sdk, an, data, simple, st, i).state
  {
    RoundShape(sdk, an, data, simple, st, i);
    RoundPrefixReplay(sdk, an, data, simple, st, i);
    var pre, id := RoundLog(Body(sdk, an, data, simple), st, i), sdk.aggregatorId;
    if st.converged {
      ReplayNeutral(id, st, pre);
    } else if |pre| == 5 {
      assert pre == pre[..4] + [pre[4]];
      ReplayAppend(id, st, pre[..4], [pre[4]]);
      ReplayOne(id, Replay(id, st, pre[..4]), pre[4]);
    } else {
      assert pre == pre[..4];
    }
  }

  /** Waits leave the latest aggregated result alone. */
  lemma {:induction false} ReplayWithoutWait(id: NodeId, st: AnalyzerState, log: seq<Event>)
    requires forall k :: 0 <= k < |log| ==> !log[k].Await?
    ensures Replay(id, st, log).aggregatorResults == st.aggregatorResults
    decreases |log|
  {
    if log != [] {
      ReplayWithoutWait(id, Apply(id, st, log[0]), log[1..]);
    }
  }

  /**
   * Every analysis runs while the analyzer has not converged, on the
   * node's data and simple_analysis flag, with the aggregated result the
   * analyzer holds at that point.
   */
  ghost predicate AnalyzeKept(log: seq<Event>, id: NodeId, st: AnalyzerState, data: Data, simple: bool)
  {
    forall k {:trigger log[k]} :: 0 <= k < |log| && log[k].Analyze? ==>
      !Replay(id, st, log[..k]).converged
      && log[k].aggregatorResults == Replay(id, st, log[..k]).aggregatorResults
      && log[k].data == data && log[k].simpleAnalysis == simple
  }

  /** Every send is the intermediate result {'result': str(result)} of the analysis just before it, to the aggregator. */
  ghost predicate SendKept(log: seq<Event>, id: NodeId, str: Value -> string)
  {
    (0 < |log| ==> !log[0].Send?)
    && forall j, k {:trigger log[j], log[k]} :: 0 <= j < k < |log| && k == j + 1 && log[k].Send? ==>
         log[j].Analyze? && log[k] == Intermediate(id, str(log[j].result))
  }

  /**
   * Every wait is for the aggregator's aggregated_results with timeout
   * 300, right after a false read of the finished flag, while the analyzer
   * has not converged; a wait followed by more events found a result.
   */
  ghost predicate AwaitKept(log: seq<Event>, id: NodeId, st: AnalyzerState)
  {
    (forall k {:trigger log[k]} :: 0 <= k < |log| && log[k].Await? ==>
       log[k] == AwaitAggregator(id, log[k].responses)
       && !Replay(id, st, log[..k]).converged
       && (k + 1 < |log| ==> AggregatedResult(log[k].responses, id).Ok?))
    && (0 < |log| ==> !log[0].Await?)
    && forall j, k {:trigger log[j], log[k]} :: 0 <= j < k < |log| && k == j + 1 ==>
         (log[k].Await? ==> log[j] == CheckFinished(false))
  }

  lemma RoundAnalyze(sdk: Sdk, an: Analysis, data: Data, simple: bool, st: AnalyzerState, i: nat)
    ensures AnalyzeKept(RoundLog(Body(sdk, an, data, simple), st, i), sdk.aggregatorId, st, data, simple)
  {
    RoundShape(sdk, an, data, simple, st, i);
    RoundPrefixReplay(sdk, an, data, simple, st, i);
  }

  lemma RoundSend(sdk: Sdk, an: Analysis, data: Data, simple: bool, st: AnalyzerState, i: nat)
    ensures SendKept(RoundLog(Body(sdk, an, data, simple), st, i), sdk.aggregatorId, an.str)
  {
    RoundShape(sdk, an, data, simple, st, i);
  }

  lemma RoundAwait(sdk: Sdk, an: Analysis, data: Data, simple: bool, st: AnalyzerState, i: nat)
    ensures AwaitKept(RoundLog(Body(sdk, an, data, simple), st, i), sdk.aggregatorId, st)
  {
    RoundShape(sdk, an, data, simple, st, i);
    RoundPrefixReplay(sdk, an, data, simple, st, i);
  }

  lemma AppendAnalyze(pre: seq<Event>, rest: seq<Event>, id: NodeId, st: AnalyzerState, next: AnalyzerState,
                      data: Data, simple: bool)
    requires Replay(id, st, pre) == next
    requires AnalyzeKept(pre, id, st, data, simple) && AnalyzeKept(rest, id, next, data, simple)
    ensures AnalyzeKept(pre + rest, id, st, data, simple)
  {
    var log := pre + rest;
    forall k | 0 <= k < |log| && log[k].Analyze?
      ensures !Replay(id, st, log[..k]).converged
      ensures log[k].aggregatorResults == Replay(id, st, log[..k]).aggregatorResults
      ensures log[k].data == data && log[k].simpleAnalysis == simple
    {
      if k < |pre| {
        assert log[k] == pre[k] && log[..k] == pre[..k];
      } else {
        var j := k - |pre|;
        assert log[k] == rest[j] && log[..k] == pre + rest[..j];
        ReplayAppend(id, st, pre, rest[..j]);
      }
    }
  }

  lemma AppendSend(pre: seq<Event>, rest: seq<Event>, id: NodeId, str: Value -> string)
    requires StartsWithCheck(rest)
    requires SendKept(pre, id, str) && SendKept(rest, id, str)
    ensures SendKept(pre + rest, id, str)
  {
    Concat(pre, rest);
  }

  lemma AppendAwait(pre: seq<Event>, rest: seq<Event>, id: NodeId, st: AnalyzerState, next: AnalyzerState)
    requires StartsWithCheck(rest)
    requires Replay(id, st, pre) == next
    requires rest != [] && 0 < |pre| && pre[|pre| - 1].Await? ==>
               AggregatedResult(pre[|pre| - 1].responses, id).Ok?
    requires AwaitKept(pre, id, st) && AwaitKept(rest, id, next)
    ensures AwaitKept(pre + rest, id, st)
  {
    Concat(pre, rest);
    var log := pre + rest;
    forall k | 0 <= k < |log| && log[k].Await?
      ensures log[k] == AwaitAggregator(id, log[k].responses)
      ensures !Replay(id, st, log[..k]).converged
      ensures k + 1 < |log| ==> AggregatedResult(log[k].responses, id).Ok?
    {
      if k < |pre| {
        assert log[k] == pre[k] && log[..k] == pre[..k];
      } else {
        var j := k - |pre|;
        assert log[k] == rest[j] && log[..k] == pre + rest[..j];
        ReplayAppend(id, st, pre, rest[..j]);
      }
    }
  }

  /** A round that raised nothing, followed by a log that keeps AnalyzeKept from the variables the round left. */
  lemma RoundThenAnalyze(sdk: Sdk, an: Analysis, data: Data, simple: bool, s: AnalyzerState, j: nat, rest: seq<Event>)
    requires Body(sdk, an, data, simple)(s, j).raised.None?
    requires AnalyzeKept(rest, sdk.aggregatorId, Body(sdk, an, data, simple)(s, j).state, data, simple)
    ensures AnalyzeKept(RoundLog(Body(sdk, an, data, simple), s, j) + rest, sdk.aggregatorId, s, data, simple)
  {
    var body := Body(sdk, an, data, simple);
    RoundAnalyze(sdk, an, data, simple, s, j);
    RoundReplay(sdk, an, data, simple, s, j);
    AppendAnalyze(RoundLog(body, s, j), rest, sdk.aggregatorId, s, body(s, j).state, data, simple);
  }

  /** A round that raised nothing and ended with a wait found a result in it. */
  lemma RoundEndsWithResult(sdk: Sdk, an: Analysis, data: Data, simple: bool, st: AnalyzerState, i: nat)
    requires AnalyzerRound(sdk, an, data, simple, st, i).raised.None?
    ensures var pre := RoundLog(Body(sdk, an, data, simple), st, i);
            0 < |pre| && (pre[|pre| - 1].Await? ==> AggregatedResult(pre[|pre| - 1].responses, sdk.aggregatorId).Ok?)
  {
    RoundShape(sdk, an, data, simple, st, i);
  }

  /** A round that raised nothing, followed by a log that keeps AwaitKept from the variables the round left. */
  lemma RoundThenAwait(sdk: Sdk, an: Analysis, data: Data, simple: bool, s: AnalyzerState, j: nat, rest: seq<Event>)
    requires Body(sdk, an, data, simple)(s, j).raised.None? && StartsWithCheck(rest)
    requires AwaitKept(rest, sdk.aggregatorId, Body(sdk, an, data, simple)(s, j).state)
    ensures AwaitKept(RoundLog(Body(sdk, an, data, simple), s, j) + rest, sdk.aggregatorId, s)
  {
    var body := Body(sdk, an, data, simple);
    var pre, next := RoundLog(body, s, j), body(s, j).state;
    RoundEndsWithResult(sdk, an, data, simple, s, j);
    RoundAwait(sdk, an, data, simple, s, j);
    RoundReplay(sdk, an, data, simple, s, j);
    AppendAwait(pre, rest, sdk.aggregatorId, s, next);
  }

  /** Every round does something: it reads the finished flag a second time at least. */
  lemma RoundsSpeak(sdk: Sdk, an: Analysis, data: Data, simple: bool)
    ensures forall s, j :: Body(sdk, an, data, simple)(s, j).events != []
  {
    forall s: AnalyzerState, j: nat ensures Body(sdk, an, data, simple)(s, j).events != [] {
      RoundShape(sdk, an, data, simple, s, j);
    }
  }

  /**
   * In every run, each analysis happens while the analyzer has not
   * converged, on the node's data and simple_analysis flag, with the
   * aggregated result the analyzer's variables hold at that point.
   */
  lemma AnalyzeSeesItsVariables(sdk: Sdk, an: Analysis, data: Data, simple: bool, fuel: nat)
    ensures AnalyzeKept(AnalyzerRun(sdk, an, data, simple, fuel).1, sdk.aggregatorId, Initial, data, simple)
  {
    var body, id := Body(sdk, an, data, simple), sdk.aggregatorId;
    RoundsSpeak(sdk, an, data, simple);
    forall s: AnalyzerState, j: nat ensures AnalyzeKept(RoundLog(body, s, j), id, s, data, simple) {
      RoundAnalyze(sdk, an, data, simple, s, j);
    }
    forall s: AnalyzerState, j: nat, rest: seq<Event>
      | body(s, j).raised.None? && AnalyzeKept(rest, id, body(s, j).state, data, simple)
      ensures AnalyzeKept(RoundLog(body, s, j) + rest, id, s, data, simple)
    {
      RoundThenAnalyze(sdk, an, data, simple, s, j, rest);
    }
    LoopKeeps((s: AnalyzerState, log: seq<Event>) => AnalyzeKept(log, id, s, data, simple),
              LoopTests(sdk), body, Initial, 0, fuel);
  }

  /** In every run, each send is the intermediate result of the analysis just before it, to the aggregator. */
  lemma SendFollowsAnalyze(sdk: Sdk, an: Analysis, data: Data, simple: bool, fuel: nat)
    ensures SendKept(AnalyzerRun(sdk, an, data, simple, fuel).1, sdk.aggregatorId, an.str)
  {
    var body, id := Body(sdk, an, data, simple), sdk.aggregatorId;
    RoundsSpeak(sdk, an, data, simple);
    forall s: AnalyzerState, j: nat ensures SendKept(RoundLog(body, s, j), id, an.str) {
      RoundSend(sdk, an, data, simple, s, j);
    }
    forall s: AnalyzerState, j: nat, rest: seq<Event> | StartsWithCheck(rest) && SendKept(rest, id, an.str)
      ensures SendKept(RoundLog(body, s, j) + rest, id, an.str)
    {
      RoundSend(sdk, an, data, simple, s, j);
      AppendSend(RoundLog(body, s, j), rest, id, an.str);
    }
    LoopKeeps((s: AnalyzerState, log: seq<Event>) => SendKept(log, id, an.str), LoopTests(sdk), body, Initial, 0, fuel);
  }

  /**
   * In every run, the analyzer waits for aggregated results only right
   * after a false read of the finished flag and while its own converged
   * flag is false, always for the aggregator with timeout 300; a wait that
   * is not the run's last event found a result.
   */
  lemma AwaitOnlyWhileBothFlagsFalse(sdk: Sdk, an: Analysis, data: Data, simple: bool, fuel: nat)
    ensures AwaitKept(AnalyzerRun(sdk, an, data, simple, fuel).1, sdk.aggregatorId, Initial)
  {
    var body, id := Body(sdk, an, data, simple), sdk.aggregatorId;
    RoundsSpeak(sdk, an, data, simple);
    forall s: AnalyzerState, j: nat ensures AwaitKept(RoundLog(body, s, j), id, s) {
      RoundAwait(sdk, an, data, simple, s, j);
    }
    forall s: AnalyzerState, j: nat, rest: seq<Event>
      | body(s, j).raised.None? && StartsWithCheck(rest) && AwaitKept(rest, id, body(s, j).state)
      ensures AwaitKept(RoundLog(body, s, j) + rest, id, s)
    {
      RoundThenAwait(sdk, an, data, simple, s, j, rest);
    }
    LoopKeeps((s: AnalyzerState, log: seq<Event>) => AwaitKept(log, id, s), LoopTests(sdk), body, Initial, 0, fuel);
  }

  /** The property of every analysis holds for the events after a prefix, from the variables the prefix leaves. */
  lemma AnalyzeSuffix(log: seq<Event>, m: nat, id: NodeId, st: AnalyzerState, data: Data, simple: bool)
    requires m <= |log| && AnalyzeKept(log, id, st, data, simple)
    ensures AnalyzeKept(log[m..], id, Replay(id, st, log[..m]), data, simple)
  {
    var tail := log[m..];
    forall k | 0 <= k < |tail| && tail[k].Analyze?
      ensures !Replay(id, Replay(id, st, log[..m]), tail[..k]).converged
      ensures tail[k].aggregatorResults == Replay(id, Replay(id, st, log[..m]), tail[..k]).aggregatorResults
      ensures tail[k].data == data && tail[k].simpleAnalysis == simple
    {
      assert tail[k] == log[m + k] && log[..m + k] == log[..m] + tail[..k];
      ReplayAppend(id, st, log[..m], tail[..k]);
    }
  }

  /**
   * Once the variables say converged, no analysis follows and they keep
   * saying so: only an analysis changes the converged flag.
   */
  lemma {:induction false} ConvergedStays(log: seq<Event>, id: NodeId, st: AnalyzerState, data: Data, simple: bool)
    requires st.converged && AnalyzeKept(log, id, st, data, simple)
    ensures forall m :: 0 <= m < |log| ==> !log[m].Analyze? && Replay(id, st, log[..m]).converged
    decreases |log|
  {
    if log != [] {
      assert log[..0] == [];
      var next := Apply(id, st, log[0]);
      var tail := log[1..];
      AnalyzeSuffix(log, 1, id, st, data, simple);
      ReplayOne(id, st, log[0]);
      assert log[..1] == [log[0]];
      ConvergedStays(tail, id, next, data, simple);
      forall m | 0 < m < |log| ensures !log[m].Analyze? && Replay(id, st, log[..m]).converged {
        assert log[m] == tail[m - 1] && log[..m] == [log[0]] + tail[..m - 1];
        ReplayAppend(id, st, [log[0]], tail[..m - 1]);
      }
    }
  }

  /** The analyzer's first round, when the finished flag first reads false, analyzes with no aggregated result. */
  lemma FirstRoundAnalyzes(sdk: Sdk, an: Analysis, data: Data, simple: bool, fuel: nat)
    requires 0 < fuel && !sdk.finished(0)
    ensures var log, analyzed := AnalyzerRun(sdk, an, data, simple, fuel).1, an.analyze(0, data, None, simple);
            2 <= |log| && log[0] == CheckFinished(false)
            && log[1] == Analyze(data, None, simple, analyzed.0, analyzed.1)
  {
    var body := Body(sdk, an, data, simple);
    RoundShape(sdk, an, data, simple, Initial, 0);
    var round := body(Initial, 0);
    if round.raised.None? {
      LoopContinues(LoopTests(sdk), body, Initial, 0, fuel, [], round.events, round.state);
    } else {
      LoopRaises(LoopTests(sdk), body, Initial, 0, fuel, [], round.events, round.state, round.raised.value);
    }
  }

  /** Until the first wait, every analysis is given None for the aggregator's results. */
  lemma FirstAnalysesGetNone(sdk: Sdk, an: Analysis, data: Data, simple: bool, fuel: nat)
    ensures var log := AnalyzerRun(sdk, an, data, simple, fuel).1;
            forall k :: 0 <= k < |log| && log[k].Analyze? && (forall m :: 0 <= m < k ==> !log[m].Await?) ==>
              log[k].aggregatorResults == None
  {
    var log, id := AnalyzerRun(sdk, an, data, simple, fuel).1, sdk.aggregatorId;
    AnalyzeSeesItsVariables(sdk, an, data, simple, fuel);
    forall k | 0 <= k < |log| && log[k].Analyze? && (forall m :: 0 <= m < k ==> !log[m].Await?)
      ensures log[k].aggregatorResults == None
    {
      assert forall m :: 0 <= m < k ==> log[..k][m] == log[m];
      ReplayWithoutWait(id, Initial, log[..k]);
    }
  }

  /**
   * An analysis after a wait, with no other wait between them, is given
   * the "result" of the aggregator's latest message that the wait
   * returned; that wait did return one.
   */
  lemma NextAnalysisGetsLatestResult(sdk: Sdk, an: Analysis, data: Data, simple: bool, fuel: nat, j: nat, k: nat)
    requires var log := AnalyzerRun(sdk, an, data, simple, fuel).1;
             j < k < |log| && log[j].Await? && log[k].Analyze? && forall m :: j < m < k ==> !log[m].Await?
    ensures var log := AnalyzerRun(sdk, an, data, simple, fuel).1;
            var text := AggregatedResult(log[j].responses, sdk.aggregatorId);
            text.Ok? && log[k].aggregatorResults == Some(text.value)
  {
    var log, id := AnalyzerRun(sdk, an, data, simple, fuel).1, sdk.aggregatorId;
    AnalyzeSeesItsVariables(sdk, an, data, simple, fuel);
    AwaitOnlyWhileBothFlagsFalse(sdk, an, data, simple, fuel);
    var between := log[j + 1..k];
    assert log[j] == AwaitAggregator(id, log[j].responses) && AggregatedResult(log[j].responses, id).Ok?;
    var text := AggregatedResult(log[j].responses, id).value;
    assert log[..j + 1] == log[..j] + [log[j]];
    assert log[..k] == log[..j + 1] + between;
    ReplayAppend(id, Initial, log[..j + 1], between);
    ReplayAppend(id, Initial, log[..j], [log[j]]);
    ReplayOne(id, Replay(id, Initial, log[..j]), log[j]);
    assert forall m :: 0 <= m < |between| ==> between[m] == log[j + 1 + m];
    assert Replay(id, Initial, log[..j + 1]).aggregatorResults == Some(text);
    ReplayWithoutWait(id, Replay(id, Initial, log[..j + 1]), between);
    assert Replay(id, Initial, log[..k]).aggregatorResults == Some(text);
  }

  /**
   * Once an analysis reports convergence, the analyzer neither analyzes
   * nor waits again, and its only later send is the intermediate result of
   * that analysis, right after it.
   */
  lemma QuietAfterConvergence(sdk: Sdk, an: Analysis, data: Data, simple: bool, fuel: nat, j: nat)
    requires var log := AnalyzerRun(sdk, an, data, simple, fuel).1;
             j < |log| && log[j].Analyze? && log[j].converged
    ensures var log := AnalyzerRun(sdk, an, data, simple, fuel).1;
            forall k :: j < k < |log| ==> !log[k].Analyze? && !log[k].Await? && (log[k].Send? ==> k == j + 1)
  {
    var log, id := AnalyzerRun(sdk, an, data, simple, fuel).1, sdk.aggregatorId;
    AnalyzeSeesItsVariables(sdk, an, data, simple, fuel);
    AwaitOnlyWhileBothFlagsFalse(sdk, an, data, simple, fuel);
    SendFollowsAnalyze(sdk, an, data, simple, fuel);
    var st := Replay(id, Initial, log[..j + 1]);
    assert log[..j + 1] == log[..j] + [log[j]];
    ReplayAppend(id, Initial, log[..j], [log[j]]);
    ReplayOne(id, Replay(id, Initial, log[..j]), log[j]);
    AnalyzeSuffix(log, j + 1, id, Initial, data, simple);
    var tail := log[j + 1..];
    ConvergedStays(tail, id, st, data, simple);
    forall k | j < k < |log| ensures !log[k].Analyze? && !log[k].Await? {
      assert log[k] == tail[k - j - 1] && log[..k] == log[..j + 1] + tail[..k - j - 1];
      ReplayAppend(id, Initial, log[..j + 1], tail[..k - j - 1]);
    }
    forall k | j + 1 < k < |log| ensures !log[k].Send? {
      assert !log[k - 1].Analyze?;
    }
  }

  /** A round never calls node_finished. */
  lemma RoundWithoutNodeFinished(sdk: Sdk, an: Analysis, data: Data, simple: bool, st: AnalyzerState, i: nat)
    ensures var events := AnalyzerRound(sdk, an, data, simple, st, i).events;
            events != [] && NoNodeFinished(events)
  {
    RoundShape(sdk, an, data, simple, st, i);
    var events, pre := AnalyzerRound(sdk, an, data, simple, st, i).events, RoundLog(Body(sdk, an, data, simple), st, i);
    forall m | 0 <= m < |events| ensures events[m] != NodeFinished {
      assert events[m] == pre[m + 1];
    }
  }

  /**
   * node_finished is called only when the loop ends normally, as its last
   * effect, right after a true read of the finished flag; a run that raised
   * or is still running has not called it.
   */
  lemma NodeFinishedOnlyAtExit(sdk: Sdk, an: Analysis, data: Data, simple: bool, fuel: nat)
    ensures var run := AnalyzerRun(sdk, an, data, simple, fuel);
            FinishesOnlyAtExit(run.0, run.1)
  {
    var body := Body(sdk, an, data, simple);
    forall s: AnalyzerState, j: nat ensures body(s, j).events != [] && NoNodeFinished(body(s, j).events) {
      RoundWithoutNodeFinished(sdk, an, data, simple, s, j);
    }
    RoundLoop.NodeFinishedOnlyAtExit(LoopTests(sdk), body, Initial, 0, fuel);
  }

  /**
   * The loop raises only what reading the aggregator's answer can raise:
   * KeyError, TypeError or IndexError.
   */
  lemma RaisesOnlyOnTheWait(sdk: Sdk, an: Analysis, data: Data, simple: bool, fuel: nat)
    ensures var run := AnalyzerRun(sdk, an, data, simple, fuel);
            run.0.Raised? ==> run.0.exception in {KeyError, TypeError, IndexError}
  {
    RoundLoop.LoopRaisesOnly(LoopTests(sdk), Body(sdk, an, data, simple), Initial, 0, fuel, {KeyError, TypeError, IndexError});
  }
}
