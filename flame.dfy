/** Small wrapper datatypes shared by every module. */
module Wrappers {
  datatype Option<+T> = None | Some(value: T)
}

/**
 * The vocabulary of the star protocol: what the FLAME core SDK hands to a
 * node (its role, its partners, the answers of the message broker, the
 * shared "finished" flag, the data source) and the log of every external
 * effect a node performs.
 *
 * Everything the SDK does is outside this model, so an `Sdk` value is an
 * oracle: each of its function-valued fields answers one kind of call, and
 * the index it takes says which call of that kind is being answered.
 */
module Flame {
  import opened Wrappers

  type NodeId = string

  /** The three message categories of the protocol. */
  datatype Category = ReadyCheck | IntermediateResults | AggregatedResults
  {
    /** The category name on the wire. */
    function Name(): string
    {
      match this
      case ReadyCheck => "ready_check"
      case IntermediateResults => "intermediate_results"
      case AggregatedResults => "aggregated_results"
    }
  }

  /** A message body: the protocol only ever puts a "result" text in it. */
  type Body = map<string, string>

  datatype Message = Message(body: Body)

  /**
   * What `await_and_return_responses` returns: for each awaited node, in the
   * order of the dictionary, either None (nothing arrived) or the list of
   * messages received from that node.
   */
  type Responses = seq<(NodeId, Option<seq<Message>>)>

  /**
   * A Python object that the protocol passes along without looking inside:
   * a strategy's result, or a JSON body from the data source.
   */
  datatype Value = Value(handle: nat)

  /** What `_get_data` hands to the analysis strategy. */
  datatype Data =
    | NoData                              // Python's False
    | One(body: Value)                    // the body of a single query
    | Keyed(bodies: map<string, Value>)   // query -> body, for a list of queries

  /** A reply of the data source to one GET request. */
  datatype HttpReply =
    | Reply(status: int, json: Option<Value>)   // json is None when the body does not parse
    | ConnectionFailed                          // the request itself raised

  /** The three messages of `_ERROR_MESSAGES`. */
  datatype ErrorMessage = IsAnalyzer | IsAggregator | IsIncorrectClass
  {
    function Text(): string
    {
      match this
      case IsAnalyzer =>
        "Node is configured as analyzer. Unable to execute command associated to aggregator."
      case IsAggregator =>
        "Node is configured as aggregator. Unable to execute command associated to analyzer."
      case IsIncorrectClass =>
        "The object/class given is incorrect, e.g. is not correctly implementing/inheriting the intended template class."
    }
  }

  /** The Python exceptions the coordination code can raise. */
  datatype Exception =
    | BrokenPipe(message: ErrorMessage)   // raised by the entry points with an _ERROR_MESSAGES text
    | TypeError                           // issubclass on a non-class, or indexing None
    | KeyError                            // a missing dictionary key
    | IndexError                          // [-1] on an empty list
    | ConnectError                        // a GET to the data source that could not be made

  datatype Result<+T> = Ok(value: T) | Raise(exception: Exception)

  /** How a bounded run of a node's loop ends. */
  datatype Outcome =
    | Done                         // the loop saw the finished flag and node_finished was called
    | Running                      // the bound on iterations was reached; the node is still looping
    | Raised(exception: Exception) // an exception escaped

  /** The FLAME core SDK of one node, as an oracle. */
  datatype Sdk = Sdk(
    role: string,                           // get_role()
    aggregatorId: NodeId,                   // get_aggregator_id()
    participantIds: seq<NodeId>,            // get_participant_ids()
    projectId: string,                      // config.project_id
    finished: nat -> bool,                  // the k-th read of config.finished
    readyReplies: nat -> seq<NodeId>,       // responders to the k-th ready_check send
    responses: nat -> Responses,            // answer to the await of round k
    dataGet: (nat, string) -> HttpReply)    // reply to the k-th GET of the data source

  /** One external effect of a node, with what it observed where the code uses it. */
  datatype Event =
    | CheckFinished(finished: bool)
    | Send(receivers: seq<NodeId>, category: Category, body: Body, timeout: Option<nat>)
    | Await(nodeIds: seq<NodeId>, category: Category, timeout: Option<nat>, responses: Responses)
    | Get(path: string)
    | Aggregate(nodeResults: seq<string>, simpleAnalysis: bool, result: Value, converged: bool)
    | Analyze(data: Data, aggregatorResults: Option<string>, simpleAnalysis: bool, result: Value, converged: bool)
    | Submit(payload: seq<bv8>)
    | AnalysisFinished
    | NodeFinished

  /** The message body {'result': text}. */
  function ResultBody(text: string): (b: Body)
    ensures "result" in b && b["result"] == text && |b| == 1
  {
    map["result" := text]
  }
}

/**
 * UTF-8 encoding, as Python's `str.encode('utf8')` does it, for strings of
 * Unicode scalar values: a Dafny `char` is never a surrogate, so the
 * UnicodeEncodeError Python raises for a lone surrogate has no counterpart.
 */
module Utf8 {
  function EncodeChar(c: char): (r: seq<bv8>)
    ensures 1 <= |r| <= 4
    ensures (c as int < 0x80) <==> |r| == 1
  {
    var n := c as int;
    if n < 0x80 then
      [n as bv8]
    else if n < 0x800 then
      [(0xC0 + n / 0x40) as bv8, (0x80 + n % 0x40) as bv8]
    else if n < 0x10000 then
      [(0xE0 + n / 0x1000) as bv8, (0x80 + (n / 0x40) % 0x40) as bv8, (0x80 + n % 0x40) as bv8]
    else
      [(0xF0 + n / 0x40000) as bv8, (0x80 + (n / 0x1000) % 0x40) as bv8,
       (0x80 + (n / 0x40) % 0x40) as bv8, (0x80 + n % 0x40) as bv8]
  }

  function Encode(s: string): (r: seq<bv8>)
    ensures |s| <= |r| <= 4 * |s|
  {
    if s == [] then [] else EncodeChar(s[0]) + Encode(s[1..])
  }
}

