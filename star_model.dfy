/**
 * The two entry points of the star model. `start_aggregator` and
 * `start_analyzer` first check the node's role and the strategy argument,
 * then keep the strategy object, wait until the partners are ready, and
 * run the node's round loop (the analyzer fetches its data in between).
 * `AggregatorStart` and `AnalyzerStart` say what each entry point does for
 * given oracles; the methods of `StarModel` do it and are proved to agree.
 */
module Star {
  import opened Wrappers
  import opened Flame
  import opened Readiness
  import opened DataFetch
  import AggregatorRounds
  import AnalyzerRounds
  import RoundLoop

  /**
   * What the entry points are given as a strategy: an instance of the
   * template class, a subclass of it (constructed with the node's SDK), a
   * class that is not a subclass, or an object that is not a class at all.
   */
  datatype StrategyArg<T> =
    | Instance(obj: T)
    | Subclass(make: Sdk -> T)
    | OtherClass
    | OtherObject
  {
    /** `isinstance(arg, Template) or issubclass(arg, Template)`, for the arguments where it does not raise. */
    predicate Accepted()
    {
      Instance? || Subclass?
    }
  }

  /** The strategy object kept by an entry point: the instance itself, or a new instance of the subclass. */
  function Chosen<T>(arg: StrategyArg<T>, sdk: Sdk): T
    requires arg.Accepted()
  {
    if arg.Instance? then arg.obj else arg.make(sdk)
  }

  /** The outcome and log of `start_aggregator`, with at most `fuel` ready checks and `fuel` rounds. */
  function AggregatorStart(sdk: Sdk, arg: StrategyArg<AggregatorRounds.Aggregation>, simple: bool, fuel: nat)
    : (Outcome, seq<Event>)
  {
    if sdk.role != "aggregator" then (Raised(BrokenPipe(ErrorMessage.IsAnalyzer)), [])
    else if arg.OtherObject? then (Raised(TypeError), [])
    else if arg.OtherClass? then (Raised(BrokenPipe(IsIncorrectClass)), [])
    else AggregatorWork(sdk, Chosen(arg, sdk), simple, fuel)
  }

  /** What `start_aggregator` does once it accepted the strategy object `agg`: the ready checks, then the round loop. */
  function AggregatorWork(sdk: Sdk, agg: AggregatorRounds.Aggregation, simple: bool, fuel: nat): (Outcome, seq<Event>)
  {
    var attempts := AttemptsFrom((a: nat) => AllCounted(sdk, a), 0, fuel);
    var waited := ReadyChecks(sdk.participantIds, attempts);
    if !(0 < attempts && AllCounted(sdk, attempts - 1)) then (Running, waited)
    else
      var run := AggregatorRounds.AggregatorRun(sdk, agg, simple, fuel);
      (run.0, waited + run.1)
  }

  /** The outcome and log of `start_analyzer`, with at most `fuel` ready checks and `fuel` rounds. */
  function AnalyzerStart(sdk: Sdk, arg: StrategyArg<AnalyzerRounds.Analysis>, query: Query, simple: bool, fuel: nat)
    : (Outcome, seq<Event>)
  {
    if sdk.role != "default" then (Raised(BrokenPipe(ErrorMessage.IsAggregator)), [])
    else if arg.OtherObject? then (Raised(TypeError), [])
    else if arg.OtherClass? then (Raised(BrokenPipe(IsIncorrectClass)), [])
    else AnalyzerWork(sdk, Chosen(arg, sdk), query, simple, fuel)
  }

  /** What `start_analyzer` does once it accepted the strategy object `an`: the ready checks, the fetch, then the round loop. */
  function AnalyzerWork(sdk: Sdk, an: AnalyzerRounds.Analysis, query: Query, simple: bool, fuel: nat): (Outcome, seq<Event>)
  {
    var attempts := AttemptsFrom((a: nat) => AggregatorAnswered(sdk, a), 0, fuel);
    var waited := ReadyChecks([sdk.aggregatorId], attempts);
    if !(0 < attempts && AggregatorAnswered(sdk, attempts - 1)) then (Running, waited)
    else
      var fetched := waited + FetchRequests(sdk, query);
      match FetchedData(sdk, query)
      case Raise(e) => (Raised(e), fetched)
      case Ok(data) =>
        var run := AnalyzerRounds.AnalyzerRun(sdk, an, data, simple, fuel);
        (run.0, fetched + run.1)
  }

  /** The ready checks and round loop of `start_aggregator`. */
  method RunAggregator(sdk: Sdk, agg: AggregatorRounds.Aggregation, simple: bool, fuel: nat)
    returns (outcome: Outcome, log: seq<Event>)
    requires sdk.role == "aggregator"
    ensures (outcome, log) == AggregatorWork(sdk, agg, simple, fuel)
  {
    var ready, attempts, waited := WaitUntilPartnersReady(sdk, fuel);
    if !ready {
      return Running, waited;
    }
    var rounds;
    outcome, rounds := AggregatorRounds.AggregatorLoop(sdk, agg, simple, fuel);
    log := waited + rounds;
  }

  /** The ready checks, data fetch and round loop of `start_analyzer`. */
  method RunAnalyzer(sdk: Sdk, an: AnalyzerRounds.Analysis, query: Query, simple: bool, fuel: nat)
    returns (outcome: Outcome, log: seq<Event>)
    requires sdk.role == "default"
    ensures (outcome, log) == AnalyzerWork(sdk, an, query, simple, fuel)
  {
    var ready, attempts, waited := WaitUntilPartnersReady(sdk, fuel);
    if !ready {
      return Running, waited;
    }
    var data, requests := GetData(sdk, query);
    log := waited + requests;
    if data.Raise? {
      return Raised(data.exception), log;
    }
    var rounds;
    outcome, rounds := AnalyzerRounds.AnalyzerLoop(sdk, an, data.value, simple, fuel);
    log := log + rounds;
  }

  /** A node's star model: its SDK and the strategy object it keeps once an entry point accepted one. */
  class StarModel {
    const flame: Sdk
    var aggregator: Option<AggregatorRounds.Aggregation>
    var analyzer: Option<AnalyzerRounds.Analysis>

    constructor(flame: Sdk)
      ensures this.flame == flame && aggregator.None? && analyzer.None?
    {
      this.flame := flame;
      aggregator, analyzer := None, None;
    }

    /** `is_aggregator`: the role the SDK reports is "aggregator"; such a node is never an analyzer. */
    predicate IsAggregator()
      ensures IsAggregator() ==> flame.role != "default"
    {
      flame.role == "aggregator"
    }

    /** `is_analyzer`: the role the SDK reports is "default"; such a node is never the aggregator. */
    predicate IsAnalyzer()
      ensures IsAnalyzer() ==> flame.role != "aggregator"
    {
      flame.role == "default"
    }

    /** `start_aggregator`. */
    method StartAggregator(arg: StrategyArg<AggregatorRounds.Aggregation>, simple: bool, fuel: nat)
      returns (outcome: Outcome, log: seq<Event>)
      modifies this
      ensures (outcome, log) == AggregatorStart(flame, arg, simple, fuel)
      ensures aggregator == if IsAggregator() && arg.Accepted() then Some(Chosen(arg, flame)) else old(aggregator)
      ensures analyzer == old(analyzer)
    {
      if !IsAggregator() {
        return Raised(BrokenPipe(ErrorMessage.IsAnalyzer)), [];
      }
      if arg.OtherObject? {
        return Raised(TypeError), [];
      }
      if arg.OtherClass? {
        return Raised(BrokenPipe(IsIncorrectClass)), [];
      }
      var agg := Chosen(arg, flame);
      aggregator := Some(agg);
      outcome, log := RunAggregator(flame, agg, simple, fuel);
    }

    /** `start_analyzer`. */
    method StartAnalyzer(arg: StrategyArg<AnalyzerRounds.Analysis>, query: Query, simple: bool, fuel: nat)
      returns (outcome: Outcome, log: seq<Event>)
      modifies this
      ensures (outcome, log) == AnalyzerStart(flame, arg, query, simple, fuel)
      ensures analyzer == if IsAnalyzer() && arg.Accepted() then Some(Chosen(arg, flame)) else old(analyzer)
      ensures aggregator == old(aggregator)
    {
      if !IsAnalyzer() {
        return Raised(BrokenPipe(ErrorMessage.IsAggregator)), [];
      }
      if arg.OtherObject? {
        return Raised(TypeError), [];
      }
      if arg.OtherClass? {
        return Raised(BrokenPipe(IsIncorrectClass)), [];
      }
      var an := Chosen(arg, flame);
      analyzer := Some(an);
      outcome, log := RunAnalyzer(flame, an, query, simple, fuel);
    }
  }

  /**
   * `start_aggregator` refuses, with nothing done, a node that is not the
   * aggregator, and then an argument that is neither an instance nor a
   * subclass of the template; each refusal is told apart by its exception.
   */
  lemma AggregatorGating(sdk: Sdk, arg: StrategyArg<AggregatorRounds.Aggregation>, simple: bool, fuel: nat)
    ensures var r := AggregatorStart(sdk, arg, simple, fuel);
            (r.0 == Raised(BrokenPipe(ErrorMessage.IsAnalyzer)) <==> sdk.role != "aggregator")
            && (r.0 == Raised(BrokenPipe(IsIncorrectClass)) <==> sdk.role == "aggregator" && arg.OtherClass?)
            && (r.0 == Raised(TypeError) <==> sdk.role == "aggregator" && arg.OtherObject?)
            && (sdk.role != "aggregator" || !arg.Accepted() ==> r.1 == [])
  {
    if sdk.role == "aggregator" && arg.Accepted() {
      AggregatorRounds.RaisesOnlyKeyError(sdk, Chosen(arg, sdk), simple, fuel);
    }
  }

  /**
   * `start_analyzer` refuses, with nothing done, a node that is not an
   * analyzer, and then an argument that is neither an instance nor a
   * subclass of the template. A TypeError can also come later, from the
   * wait for aggregated results.
   */
  lemma AnalyzerGating(sdk: Sdk, arg: StrategyArg<AnalyzerRounds.Analysis>, query: Query, simple: bool, fuel: nat)
    ensures var r := AnalyzerStart(sdk, arg, query, simple, fuel);
            (r.0 == Raised(BrokenPipe(ErrorMessage.IsAggregator)) <==> sdk.role != "default")
            && (r.0 == Raised(BrokenPipe(IsIncorrectClass)) <==> sdk.role == "default" && arg.OtherClass?)
            && (sdk.role == "default" && arg.OtherObject? ==> r.0 == Raised(TypeError))
            && (sdk.role != "default" || !arg.Accepted() ==> r.1 == [])
  {
    if query.Many? {
      RaisesOnlyOnConnectError(sdk, query.queries, |query.queries|);
    }
    if sdk.role == "default" && arg.Accepted() && FetchedData(sdk, query).Ok? {
      AnalyzerRounds.RaisesOnlyOnTheWait(sdk, Chosen(arg, sdk), FetchedData(sdk, query).value, simple, fuel);
    }
  }

  /**
   * Once `start_aggregator` accepted its strategy object (`AggregatorStart`
   * is then `AggregatorWork`), it first sends ready checks to the participants,
   * and runs its round loop only after an attempt whose responder count
   * equals the participant count (see `CountMeansEveryone` for when that
   * means every participant answered); a node whose attempts never pass
   * that test is still waiting.
   */
  lemma AggregatorWaitsThenLoops(sdk: Sdk, agg: AggregatorRounds.Aggregation, simple: bool, fuel: nat)
    ensures var r, n := AggregatorWork(sdk, agg, simple, fuel), AttemptsFrom((a: nat) => AllCounted(sdk, a), 0, fuel);
            var ready := 0 < n && AllCounted(sdk, n - 1);
            var run := AggregatorRounds.AggregatorRun(sdk, agg, simple, fuel);
            n <= |r.1| && r.1[..n] == ReadyChecks(sdk.participantIds, n)
            && (n < |r.1| <==> ready)
            && (ready ==> r.1[n..] == run.1 && r.0 == run.0)
            && (!ready ==> r.0 == Running && n == fuel)
  {
    var r, n := AggregatorWork(sdk, agg, simple, fuel), AttemptsFrom((a: nat) => AllCounted(sdk, a), 0, fuel);
    var waited := ReadyChecks(sdk.participantIds, n);
    if 0 < n && AllCounted(sdk, n - 1) {
      var run := AggregatorRounds.AggregatorRun(sdk, agg, simple, fuel);
      assert r.1 == waited + run.1;
      assert r.1[..n] == waited && r.1[n..] == run.1;
    } else {
      assert r.1 == waited && r.1[..n] == waited;
    }
  }

  /** The three parts of a concatenation, sliced back out. */
  lemma Split3(a: seq<Event>, b: seq<Event>, c: seq<Event>)
    ensures var abc := a + b + c;
            abc[..|a|] == a && abc[|a|..|a| + |b|] == b && abc[|a| + |b|..] == c
  {
  }

  /**
   * Once `start_analyzer` accepted its strategy object (`AnalyzerStart` is
   * then `AnalyzerWork`), it first sends ready checks to the aggregator, then
   * fetches its data, and runs its round loop on that data only after the
   * aggregator answered and the fetch raised nothing. The "Could not
   * contact aggregator" raise cannot happen: the only way not to reach the
   * fetch is to keep waiting.
   */
  lemma AnalyzerWaitsFetchesThenLoops(sdk: Sdk, an: AnalyzerRounds.Analysis, query: Query, simple: bool, fuel: nat)
    ensures var r, n := AnalyzerWork(sdk, an, query, simple, fuel), AttemptsFrom((a: nat) => AggregatorAnswered(sdk, a), 0, fuel);
            var ready := 0 < n && AggregatorAnswered(sdk, n - 1);
            var requests, fetched := FetchRequests(sdk, query), FetchedData(sdk, query);
            n <= |r.1| && r.1[..n] == ReadyChecks([sdk.aggregatorId], n)
            && (n < |r.1| <==> ready)
            && (!ready ==> r.0 == Running && n == fuel)
            && (ready ==> r.1[n..n + |requests|] == requests)
            && (ready && fetched.Raise? ==> r.0 == Raised(fetched.exception) && |r.1| == n + |requests|)
            && (ready && fetched.Ok? ==>
                  var run := AnalyzerRounds.AnalyzerRun(sdk, an, fetched.value, simple, fuel);
                  r.1[n + |requests|..] == run.1 && r.0 == run.0)
  {
    var r, n := AnalyzerWork(sdk, an, query, simple, fuel), AttemptsFrom((a: nat) => AggregatorAnswered(sdk, a), 0, fuel);
    var waited := ReadyChecks([sdk.aggregatorId], n);
    var requests, fetched := FetchRequests(sdk, query), FetchedData(sdk, query);
    if 0 < n && AggregatorAnswered(sdk, n - 1) {
      if fetched.Ok? {
        RoundLoop.LoopSpeaks(AnalyzerRounds.LoopTests(sdk), AnalyzerRounds.Body(sdk, an, fetched.value, simple),
                             AnalyzerRounds.Initial, 0, fuel);
        Split3(waited, requests, AnalyzerRounds.AnalyzerRun(sdk, an, fetched.value, simple, fuel).1);
      } else {
        if query.Many? {
          RequestsInOrder(sdk, query.queries, |query.queries|);
        }
        Split3(waited, requests, []);
        assert waited + requests + [] == waited + requests;
      }
    } else {
      assert r.1 == waited && r.1[..n] == waited;
    }
  }
}
