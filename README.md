# Star model coordination protocol, in Dafny

This project models the coordination core of FLAME's star schema
(`flame/schemas/star/star_model.py`). In a run, one aggregator node and
several analyzer nodes exchange results in rounds until the aggregator's
strategy reports convergence. The model covers:

- the role checks and the strategy argument check of `start_aggregator` and
  `start_analyzer`, with the three `_ERROR_MESSAGES` outcomes;
- the readiness handshake `_wait_until_partners_ready`, in both variants;
- the data fetch `_get_data`, for a single query and for a list of queries;
- the aggregator's round loop: the all-or-nothing barrier, the inputs of
  `aggregate`, and the submit-or-broadcast branch;
- the analyzer's round loop: the local and global convergence flags, the
  wait for aggregated results, and the carried-over aggregated result;
- `is_aggregator`, `is_analyzer` and `converged`.

## How the system is represented

The FLAME core SDK is an oracle: an `Sdk` value (`Flame.Sdk`). Each of its
function-valued fields answers one kind of SDK call, indexed by which call
of that kind it is:

- `finished(k)` is the k-th call of `converged()`, i.e. the k-th read of
  `config.finished`. The aggregator reads it once per round, so round `i`
  uses read `i`. The analyzer reads it twice per round, so round `i` uses
  reads `2i` (the loop test) and `2i + 1` (line 110).
- `readyReplies(a)` is the responder list of ready-check attempt `a`.
- `responses(i)` is the response dictionary that the await of round `i`
  returns. It is a sequence of (node, entry) pairs in dictionary order. An
  entry is `None` or a list of messages.
- `dataGet(k, path)` is the reply to the k-th GET of the data source.

The strategies are also values: `AggregatorRounds.Aggregation` and
`AnalyzerRounds.Analysis`. Their `aggregate` and `analyze` methods are
uninterpreted functions, given the round number in place of whatever
state the object keeps. Python's `str()` of a result is an uninterpreted
function too.

Every external effect is an `Event` in a log:

- `CheckFinished` for each `converged()` call;
- `Send` and `Await`;
- `Get` for each data request;
- `Aggregate` and `Analyze`, each with its inputs and outputs;
- `Submit`, `AnalysisFinished` and `NodeFinished`.

The loops have no bound in the source. The model runs each one for at most
`fuel` iterations and reports the outcome `Running` when the bound is
reached.

## How it is organised

- **Round loops.** `RoundLoop.Loop` is the shape both round loops share:
  test the finished flag, run the body, repeat, and call `node_finished`
  on exit. The body is a parameter.
  - `AggregatorRounds` and `AnalyzerRounds` each define their body
    (`AggregatorRound`, `AnalyzerRound`) and their run (`AggregatorRun`,
    `AnalyzerRun`).
  - Each also has a method with a `while` loop (`AggregatorLoop`,
    `AnalyzerLoop`) that is proved to produce exactly that run.
  - Properties of every run are proved once per round and then lifted to
    whole runs by the induction lemma `RoundLoop.LoopKeeps`.
- **Readiness.** `Readiness` models both variants of the handshake as
  methods with loops. `AttemptsFrom` states how many attempts a retry loop
  makes.
- **Data fetch.** `DataFetch` defines `Collected`, a fold over the query
  list that specifies the loop of `_get_data`. `GetData` is the loop itself.
- **Entry points.** `Star` has the `StarModel` class, whose methods
  `StartAggregator` and `StartAnalyzer` update the `aggregator` and
  `analyzer` fields as the source does. `AggregatorStart` and
  `AnalyzerStart` state each entry point's outcome and log. Past the role
  and argument checks, each is `AggregatorWork` or `AnalyzerWork`, which
  the methods `RunAggregator` and `RunAnalyzer` carry out.

## Where the code and its design description differ (the model follows the code)

- **Aggregator readiness.** The design description says that ready-check
  responders accumulate across attempts. The code does not:
  `num_responses = len(received_list)` counts one attempt's responders. The
  loop exits on the first attempt whose count equals
  `len(get_participant_ids())`.
  - `AggregatorReadyCheck` states this.
  - `CountMeansEveryone` shows that the count means "every participant
    answered" only when responders and participants are distinct
    participant ids.
- **Analyzer readiness.** The design description says a handshake that
  never succeeds fails fatally. In the code, the analyzer's loop only exits
  once the aggregator answered, so the `Could not contact aggregator` raise
  cannot happen. `AnalyzerReadyCheck` states this. A node whose aggregator
  never answers keeps waiting (outcome `Running`).
- **Wait for aggregated results.** The design description leaves the
  outcome of a timed-out wait open. The code indexes the answer directly,
  and the model gives the exception Python raises:
  - `KeyError` when the aggregator has no entry, or its latest message has
    no `result`;
  - `TypeError` when the entry is `None`;
  - `IndexError` when the entry is an empty list.

  There is no retry.
- **Data fetch.** The design description says a failing query never stops
  the others. In the code the GET itself is issued before the `try`, so a
  request that cannot be made at all raises out of `_get_data` and ends the
  list fetch; only a bad status or an unparsable body is skipped.
  `Collected` and `StopsAtConnectError` state this.
- **Converged analyzer.** The design description has a converged analyzer
  block until the aggregator finishes. In the code it keeps looping: each
  round reads the finished flag twice and does nothing else.
  `AnalyzerRound` models this, and `QuietAfterConvergence` and
  `ConvergedStays` state it.

## Model

| member | source | states |
|---|---|---|
| Flame.ResultBody | flame/schemas/star/star_model.py:107-109 | a message body is the one-key dictionary {'result': text} |
| Utf8.EncodeChar | flame/schemas/star/star_model.py:65 | one character encodes to 1 to 4 UTF-8 bytes, exactly 1 for ASCII |
| Utf8.Encode | flame/schemas/star/star_model.py:65 | `str.encode('utf8')` yields between one and four bytes per character |
| Readiness.ReadyChecks | flame/schemas/star/star_model.py:129-132 | the log of n ready-check attempts is n identical sends, category ready_check, empty body, timeout 120 |
| Readiness.AttemptsFrom | flame/schemas/star/star_model.py:126-132 | a retry loop stops after the first attempt whose exit test holds, or when the bound runs out; no earlier attempt passed the test |
| Readiness.AnalyzerReadyCheck | flame/schemas/star/star_model.py:122-136 | the analyzer's handshake ends ready exactly when the last attempt's responders include the aggregator; no earlier attempt had it; not ready only when the bound ran out, so the raise at lines 133-134 cannot happen |
| Readiness.AggregatorReadyCheck | flame/schemas/star/star_model.py:137-155 | the aggregator's handshake ends on the first single attempt whose responder count equals the participant count; the printed progress is exactly `Printed`: before each attempt, the count so far when it exceeds everything printed before |
| Readiness.PrintedRunningMaxima | flame/schemas/star/star_model.py:139-145 | the printed counts are the running maxima of the attempts' counts: they start at 0, strictly increase, each is an earlier attempt's count, and the last printed value bounds every earlier count |
| Readiness.AttemptsUnique | flame/schemas/star/star_model.py:126-153 | any stopped retry loop made exactly `AttemptsFrom` attempts |
| Readiness.WaitUntilPartnersReady | flame/schemas/star/star_model.py:121-155 | role 'default' takes the analyzer variant, every other role the aggregator variant |
| Readiness.CountMeansEveryone | flame/schemas/star/star_model.py:151-152 | with distinct ids and responders among the participants, the count test holds exactly when every participant answered that attempt |
| AggregatorRounds.LatestResults | flame/schemas/star/star_model.py:53-54 | node_results has one entry per entry of the awaited response dictionary, in its order, each the 'result' of that partner's latest message, and exists exactly when every latest message has a 'result' |
| AggregatorRounds.AggregatorRoundStep | flame/schemas/star/star_model.py:49-73 | one round of the aggregator's loop body produces exactly the events and exception of `AggregatorRound` |
| AggregatorRounds.AggregatorLoop | flame/schemas/star/star_model.py:47-74 | the aggregator's while loop and node_finished produce exactly the outcome and log of `AggregatorRun` |
| AggregatorRounds.RoundShape | flame/schemas/star/star_model.py:49-73 | a round is a false flag read and a poll; and, only if every partner answered and every latest message has a result, an aggregation of those results followed by either a submission and analysis_finished or a broadcast |
| AggregatorRounds.EmptyBarrierPasses | flame/schemas/star/star_model.py:52-59 | with an empty response dictionary the barrier passes and aggregate is given [] |
| AggregatorRounds.AggregateOnlyAfterFullBarrier | flame/schemas/star/star_model.py:49-59 | in every run, each aggregate call directly follows a poll that every partner answered, and takes that poll's latest results and the simple_analysis flag |
| AggregatorRounds.IncompleteRoundOnlyRepolls | flame/schemas/star/star_model.py:47-52 | in every run, polls ask the partners for intermediate_results with no timeout, right after a false flag read, and an incomplete poll is followed directly by the next flag read |
| AggregatorRounds.AggregationEndsInOneBranch | flame/schemas/star/star_model.py:58-73 | in every run, a converged aggregation is followed by the submission of the UTF-8 bytes of str(result) and then analysis_finished; any other by the broadcast of {'result': str(result)} to the partners as aggregated_results; then comes the next flag read |
| AggregatorRounds.EffectsOnlyAfterAggregation | flame/schemas/star/star_model.py:62-73 | in every run, submissions, analysis_finished and sends happen only as the branch of the aggregation just before them |
| AggregatorRounds.NodeFinishedOnlyAtExit | flame/schemas/star/star_model.py:47-74 | the aggregator's loop ends normally exactly when its log ends with a true flag read and node_finished; node_finished occurs at most once, as the last event, and never in a run that raised or is still running; the flag reads true nowhere else |
| AggregatorRounds.RaisesOnlyKeyError | flame/schemas/star/star_model.py:52-54 | the aggregator's loop can raise only the KeyError of a latest message without a 'result' |
| AnalyzerRounds.LookupFindsFirst | flame/schemas/star/star_model.py:112-114 | looking up the aggregator's entry finds its first entry, and finds nothing exactly when there is none |
| AnalyzerRounds.AggregatedResult | flame/schemas/star/star_model.py:112-114 | reading `[aggregator_id][-1].body['result']` from the wait's answer raises only KeyError, TypeError or IndexError; which one, for which answer, is `AggregatedResultCases` |
| AnalyzerRounds.AggregatedResultCases | flame/schemas/star/star_model.py:112-114 | reading the aggregator's answer yields the 'result' of its latest message, or KeyError for a missing entry or key, TypeError for a None entry, IndexError for an empty one |
| AnalyzerRounds.AnalyzerRoundStep | flame/schemas/star/star_model.py:101-114 | one round of the analyzer's loop body produces exactly the events, new variables and exception of `AnalyzerRound` |
| AnalyzerRounds.AnalyzerLoop | flame/schemas/star/star_model.py:97-115 | the analyzer's while loop and node_finished produce exactly the outcome and log of `AnalyzerRun` from aggregator_results = None, converged = False |
| AnalyzerRounds.RoundShape | flame/schemas/star/star_model.py:100-114 | a round analyzes and sends only when not converged, always reads the flag again, and waits (timeout 300) only when that read and the local flag are both false, taking the waited result as the new aggregator_results |
| AnalyzerRounds.RoundReplay | flame/schemas/star/star_model.py:101-114 | replaying a round's events from the variables before it gives the variables after it |
| AnalyzerRounds.AnalyzeSeesItsVariables | flame/schemas/star/star_model.py:101-105 | in every run, each analyze happens while not converged, on the node's data and simple_analysis flag, with the aggregator_results the loop holds at that point |
| AnalyzerRounds.SendFollowsAnalyze | flame/schemas/star/star_model.py:103-109 | in every run, each send is {'result': str(result)} of the analysis just before it, to the aggregator, as intermediate_results |
| AnalyzerRounds.AwaitOnlyWhileBothFlagsFalse | flame/schemas/star/star_model.py:110-114 | in every run, each wait is for the aggregator's aggregated_results with timeout 300, right after a false flag read and while not converged; a wait that is not the last event yielded a result |
| AnalyzerRounds.ConvergedStays | flame/schemas/star/star_model.py:98-103 | once the loop's converged flag is true, no analysis follows and the flag stays true |
| AnalyzerRounds.FirstRoundAnalyzes | flame/schemas/star/star_model.py:97-105 | when the first flag read is false, the first effect after it is an analyze given aggregator_results = None |
| AnalyzerRounds.FirstAnalysesGetNone | flame/schemas/star/star_model.py:97-105 | every analysis before the first wait is given aggregator_results = None |
| AnalyzerRounds.NextAnalysisGetsLatestResult | flame/schemas/star/star_model.py:103-114 | an analysis after a wait, with no wait between, is given the 'result' of the aggregator's latest message from that wait |
| AnalyzerRounds.QuietAfterConvergence | flame/schemas/star/star_model.py:101-110 | after an analysis reports convergence there is no further analyze and no wait, and the only later send is that analysis's own result, right after it |
| AnalyzerRounds.NodeFinishedOnlyAtExit | flame/schemas/star/star_model.py:100-115 | the analyzer's loop ends normally exactly when its log ends with a true flag read and node_finished; node_finished occurs at most once, as the last event, and never in a run that raised or is still running |
| AnalyzerRounds.RaisesOnlyOnTheWait | flame/schemas/star/star_model.py:112-114 | the analyzer's loop can raise only KeyError, TypeError or IndexError, from reading the aggregator's answer |
| DataFetch.Path | flame/schemas/star/star_model.py:159 | the body is the f-string of line 159, '/' + project_id + '/fhir/' + query; the contract states its length, its leading '/' and that it ends with the query |
| DataFetch.GetData | flame/schemas/star/star_model.py:157-177 | the fetch returns exactly `FetchedData` and makes exactly the requests `FetchRequests` |
| DataFetch.StopsAtConnectError | flame/schemas/star/star_model.py:168-171 | a GET that cannot be made ends the loop: nothing more is collected or requested |
| DataFetch.SingleQuery | flame/schemas/star/star_model.py:158-165 | a single query yields the body of a 2xx reply that parses, False for any other reply, and raises only when the GET cannot be made |
| DataFetch.RaisesOnlyOnConnectError | flame/schemas/star/star_model.py:168-176 | a list is collected without a raise exactly when every GET could be made; a failed status or body skips only that query |
| DataFetch.RequestsInOrder | flame/schemas/star/star_model.py:168-170 | the queries are requested in order, every one of them when no GET raised, otherwise up to the one whose GET could not be made |
| DataFetch.KeysAreSucceededQueries | flame/schemas/star/star_model.py:167-176 | the keys of the result dictionary are exactly the queries that succeeded |
| DataFetch.LastSuccessWins | flame/schemas/star/star_model.py:172-173 | a repeated query maps to the body of its last successful reply |
| DataFetch.NoDataWhenNothingSucceeded | flame/schemas/star/star_model.py:177 | the list form returns False exactly when no GET raised and no query succeeded, and otherwise the non-empty dictionary |
| Star.StarModel.constructor | flame/schemas/star/star_model.py:27-28 | a new model holds its SDK and no strategy object |
| Star.StarModel.StartAggregator | flame/schemas/star/star_model.py:36-78 | start_aggregator produces exactly the outcome and log of `AggregatorStart`, keeps the accepted strategy object (the instance, or the subclass built with the SDK), and leaves the analyzer alone |
| Star.StarModel.StartAnalyzer | flame/schemas/star/star_model.py:80-119 | start_analyzer produces exactly the outcome and log of `AnalyzerStart`, keeps the accepted strategy object, and leaves the aggregator alone |
| Star.StarModel.IsAggregator | flame/schemas/star/star_model.py:30-31 | the body is `get_role() == 'aggregator'` of line 31; the contract adds that a node it accepts never has the analyzer role 'default' |
| Star.StarModel.IsAnalyzer | flame/schemas/star/star_model.py:33-34 | the body is `get_role() == 'default'` of line 34; the contract adds that a node it accepts never has the role 'aggregator' |
| Star.AggregatorGating | flame/schemas/star/star_model.py:36-39 | start_aggregator raises IS_ANALYZER exactly when the role is not 'aggregator', IS_INCORRECT_CLASS exactly for a class that is not a subclass, TypeError exactly for a non-class object, and in those cases does nothing else |
| Star.AnalyzerGating | flame/schemas/star/star_model.py:80-83 | start_analyzer raises IS_AGGREGATOR exactly when the role is not 'default', IS_INCORRECT_CLASS exactly for a class that is not a subclass, TypeError for a non-class object, and in those cases does nothing else |
| Star.RunAggregator | flame/schemas/star/star_model.py:45-74 | the ready checks and round loop of an accepted aggregator produce exactly the outcome and log of `AggregatorWork` |
| Star.RunAnalyzer | flame/schemas/star/star_model.py:88-115 | the ready checks, data fetch and round loop of an accepted analyzer produce exactly the outcome and log of `AnalyzerWork` |
| Star.AggregatorWaitsThenLoops | flame/schemas/star/star_model.py:42-47 | an accepted aggregator (`AggregatorWork`) sends ready checks first, and enters its round loop only after an attempt whose responder count equals the participant count (that this means every participant answered holds only under the conditions of `CountMeansEveryone`); a node whose attempts never pass that test is still waiting |
| Star.AnalyzerWaitsFetchesThenLoops | flame/schemas/star/star_model.py:86-100 | an accepted analyzer (`AnalyzerWork`) sends ready checks first, fetches its data only after the aggregator answered, and enters its round loop on that data only if the fetch raised nothing |

## Left out

- The FLAME core SDK itself (message broker, result storage, the store
  behind `config.finished`, the HTTP data client) is not part of this
  model. It appears only as the oracles of `Flame.Sdk`.
- Blocking and timing are not modelled: `time.sleep`, `asyncio.run`, and
  how long an await blocks. The timeouts (120, 300) are kept as values of
  the events. A timed-out wait is an entry that is `None` or empty.
- Printing is left out, except the progress count of the aggregator's
  handshake, which `AggregatorReadyCheck` returns as `progress`.
- What the strategies compute, what `node_finished` does, and Python's
  `str()` are left out. They are uninterpreted functions.
- Python's `isinstance`/`issubclass` are not modelled beyond the four
  kinds of strategy argument in `Star.StrategyArg`.
- The loops are unbounded in the source. The model stops each one after
  `fuel` iterations with outcome `Running`, so it says nothing about runs
  longer than the bound. It does not capture non-termination itself.
- Dictionary order is not modelled for the result of `_get_data`: it is a
  `map`, so the insertion order of the query keys is not kept. The order
  of the await's response dictionary is kept, as a sequence.
- Concurrency between nodes is not modelled. Each node is modelled alone,
  against the answers its SDK gives it. How fast the finished flag
  propagates is part of those answers.
- A constructor call on a subclass (`aggregator(flame=self.flame)`) is
  assumed to succeed and to have no other effect.
- AggregatorRounds.RaisesOnlyKeyError: covers only the exceptions of the
  loop's own code. The SDK calls (`send_message`,
  `await_and_return_responses`, `submit_final_result`,
  `analysis_finished`) and the strategy's `aggregate` and `node_finished`
  are total oracles in this model, so the lemma assumes they never raise.
  It also assumes that `str()` of a result (lines 65 and 73) does not raise,
  although a `__str__` that raises or returns a non-str makes it raise. And
  it assumes that `.encode('utf8')` at line 65 does not raise, although
  Python raises UnicodeEncodeError for a string holding a lone surrogate.
  Dafny's `char` excludes the surrogate range, so `str()` is modelled as
  yielding Unicode scalar values only. Whatever these raise in Python would
  escape the loop as well.
- AnalyzerRounds.RaisesOnlyOnTheWait: likewise assumes that `send_message`,
  `await_and_return_responses`, the strategy's `analyze` and
  `node_finished`, and `str()` of an analysis result (line 109) never raise.
- Star.AggregatorGating: the clause "TypeError exactly for a non-class
  object" assumes the same. A TypeError raised by a strategy method, an SDK
  call or `str()` of a result would also end `start_aggregator`.
- Star.AnalyzerGating: a TypeError outcome does not identify a non-class
  argument, because a None entry in the wait for aggregated results raises
  TypeError too; so that clause is one-way.
