/**
 * `_get_data`: the analyzer's one-off fetch of its data from the FHIR data
 * source of its project. A single query yields the JSON body of its reply,
 * or False when the reply is not a 2xx or does not parse; a list of queries
 * yields a dictionary from each query that succeeded to its body, or False
 * when none did. A GET that cannot be made at all raises, since the request
 * is issued outside the `try`.
 */
module DataFetch {
  import opened Wrappers
  import opened Flame

  /** A query argument: Python's `str`, or any other iterable of query strings. */
  datatype Query = Single(query: string) | Many(queries: seq<string>)

  /** The request path of a query: /{project_id}/fhir/{query}. */
  function Path(projectId: string, query: string): (p: string)
    ensures |p| == |projectId| + |query| + 7
    ensures p[..1] == "/" && p[|p| - |query|..] == query
  {
    "/" + projectId + "/fhir/" + query
  }

  /** `raise_for_status()` and `json()` both went through: a 2xx reply with a parsable body. */
  predicate Succeeded(reply: HttpReply)
  {
    reply.Reply? && 200 <= reply.status < 300 && reply.json.Some?
  }

  /** The reply to the GET of the `k`-th query of a list. */
  function ReplyTo(sdk: Sdk, queries: seq<string>, k: nat): HttpReply
    requires k < |queries|
  {
    sdk.dataGet(k, Path(sdk.projectId, queries[k]))
  }

  /**
   * The dictionary `responses` after the loop has handled the first `n`
   * queries, or the exception that escaped it.
   */
  function Collected(sdk: Sdk, queries: seq<string>, n: nat): Result<map<string, Value>>
    requires n <= |queries|
  {
    if n == 0 then Ok(map[])
    else match Collected(sdk, queries, n - 1)
      case Raise(e) => Raise(e)
      case Ok(responses) =>
        var reply := ReplyTo(sdk, queries, n - 1);
        if reply.ConnectionFailed? then Raise(ConnectError)
        else if Succeeded(reply) then Ok(responses[queries[n - 1] := reply.json.value])
        else Ok(responses)
  }

  /** The GET requests the loop has made after handling the first `n` queries. */
  function Requests(sdk: Sdk, queries: seq<string>, n: nat): seq<Event>
    requires n <= |queries|
  {
    if n == 0 then []
    else if Collected(sdk, queries, n - 1).Raise? then Requests(sdk, queries, n - 1)
    else Requests(sdk, queries, n - 1) + [Get(Path(sdk.projectId, queries[n - 1]))]
  }

  /** What `_get_data` returns, or the exception it raises. */
  function FetchedData(sdk: Sdk, query: Query): Result<Data>
  {
    match query
    case Single(q) =>
      var reply := sdk.dataGet(0, Path(sdk.projectId, q));
      if reply.ConnectionFailed? then Raise(ConnectError)
      else if Succeeded(reply) then Ok(One(reply.json.value))
      else Ok(NoData)
    case Many(queries) =>
      match Collected(sdk, queries, |queries|)
      case Raise(e) => Raise(e)
      case Ok(responses) => if |responses| == 0 then Ok(NoData) else Ok(Keyed(responses))
  }

  /** The GET requests `_get_data` makes. */
  function FetchRequests(sdk: Sdk, query: Query): seq<Event>
  {
    match query
    case Single(q) => [Get(Path(sdk.projectId, q))]
    case Many(queries) => Requests(sdk, queries, |queries|)
  }

  /** Once a GET could not be made, the loop has stopped: nothing more is collected or requested. */
  lemma {:induction false} StopsAtConnectError(sdk: Sdk, queries: seq<string>, n: nat, m: nat)
    requires n <= m <= |queries| && Collected(sdk, queries, n).Raise?
    ensures Collected(sdk, queries, m) == Collected(sdk, queries, n)
    ensures Requests(sdk, queries, m) == Requests(sdk, queries, n)
    decreases m
  {
    if n < m {
      StopsAtConnectError(sdk, queries, n, m - 1);
    }
  }

  /** `_get_data` itself. */
  method GetData(sdk: Sdk, query: Query) returns (data: Result<Data>, log: seq<Event>)
    ensures data == FetchedData(sdk, query)
    ensures log == FetchRequests(sdk, query)
  {
    match query
    case Single(q) =>
      var path := Path(sdk.projectId, q);
      log := [Get(path)];
      var reply := sdk.dataGet(0, path);
      if reply.ConnectionFailed? {
        data := Raise(ConnectError);
      } else if Succeeded(reply) {
        data := Ok(One(reply.json.value));
      } else {
        data := Ok(NoData);
      }
    case Many(queries) =>
      var responses: map<string, Value> := map[];
      log := [];
      var n := 0;
      while n < |queries|
        invariant n <= |queries|
        invariant Collected(sdk, queries, n) == Ok(responses)
        invariant log == Requests(sdk, queries, n)
      {
        var path := Path(sdk.projectId, queries[n]);
        var reply := sdk.dataGet(n, path);
        log := log + [Get(path)];
        if reply.ConnectionFailed? {
          StopsAtConnectError(sdk, queries, n + 1, |queries|);
          return Raise(ConnectError), log;
        }
        if Succeeded(reply) {
          responses := responses[queries[n] := reply.json.value];
        }
        n := n + 1;
      }
      data := if |responses| == 0 then Ok(NoData) else Ok(Keyed(responses));
  }

  /**
   * A single query: the body of a 2xx reply that parses, False for any
   * other reply, and a raise only when the GET could not be made.
   */
  lemma SingleQuery(sdk: Sdk, q: string)
    ensures var reply, r := sdk.dataGet(0, Path(sdk.projectId, q)), FetchedData(sdk, Single(q));
            (r.Raise? <==> reply.ConnectionFailed?)
            && (r.Ok? && r.value.One? <==> Succeeded(reply))
            && (r == Ok(NoData) <==> reply.Reply? && !Succeeded(reply))
            && (r.Ok? && r.value.One? ==> r.value.body == reply.json.value)
            && !(r.Ok? && r.value.Keyed?)
  {
  }

  /**
   * A failed query does not stop the loop: the list is collected without
   * a raise exactly when every GET could be made.
   */
  lemma {:induction false} RaisesOnlyOnConnectError(sdk: Sdk, queries: seq<string>, n: nat)
    requires n <= |queries|
    ensures Collected(sdk, queries, n).Ok? <==> forall k :: 0 <= k < n ==> !ReplyTo(sdk, queries, k).ConnectionFailed?
    ensures Collected(sdk, queries, n).Raise? ==> Collected(sdk, queries, n) == Raise(ConnectError)
  {
    if n > 0 {
      RaisesOnlyOnConnectError(sdk, queries, n - 1);
    }
  }

  /**
   * Every query is requested, in order, up to and including the first
   * whose GET could not be made.
   */
  lemma {:induction false} RequestsInOrder(sdk: Sdk, queries: seq<string>, n: nat)
    requires n <= |queries|
    ensures var log := Requests(sdk, queries, n);
            |log| <= n
            && (forall k :: 0 <= k < |log| ==> log[k] == Get(Path(sdk.projectId, queries[k])))
            && (Collected(sdk, queries, n).Ok? ==> |log| == n)
            && (Collected(sdk, queries, n).Raise? ==> 0 < |log| && ReplyTo(sdk, queries, |log| - 1).ConnectionFailed?)
  {
    if n > 0 {
      RequestsInOrder(sdk, queries, n - 1);
    }
  }

  /** A query succeeded somewhere among the first `n`. */
  predicate SucceededAmong(sdk: Sdk, queries: seq<string>, n: nat, q: string)
    requires n <= |queries|
  {
    exists k :: 0 <= k < n && queries[k] == q && Succeeded(ReplyTo(sdk, queries, k))
  }

  /** The keys of the collected dictionary are exactly the queries that succeeded. */
  lemma {:induction false} KeysAreSucceededQueries(sdk: Sdk, queries: seq<string>, n: nat)
    requires n <= |queries| && Collected(sdk, queries, n).Ok?
    ensures forall q :: q in Collected(sdk, queries, n).value <==> SucceededAmong(sdk, queries, n, q)
  {
    if n > 0 {
      KeysAreSucceededQueries(sdk, queries, n - 1);
      forall q ensures q in Collected(sdk, queries, n).value <==> SucceededAmong(sdk, queries, n, q) {
        if SucceededAmong(sdk, queries, n, q) && !SucceededAmong(sdk, queries, n - 1, q) {
          var k :| 0 <= k < n && queries[k] == q && Succeeded(ReplyTo(sdk, queries, k));
          assert k == n - 1;
        }
      }
    }
  }

  /** The k-th query succeeded and no later query equal to it did. */
  predicate LastSuccess(sdk: Sdk, queries: seq<string>, n: nat, k: nat)
    requires k < n <= |queries|
  {
    Succeeded(ReplyTo(sdk, queries, k))
    && forall l :: k < l < n && queries[l] == queries[k] ==> !Succeeded(ReplyTo(sdk, queries, l))
  }

  /** A query repeated in the list maps to the body of its last successful reply. */
  lemma {:induction false} LastSuccessWins(sdk: Sdk, queries: seq<string>, n: nat, k: nat)
    requires k < n <= |queries| && Collected(sdk, queries, n).Ok? && LastSuccess(sdk, queries, n, k)
    ensures queries[k] in Collected(sdk, queries, n).value
    ensures Collected(sdk, queries, n).value[queries[k]] == ReplyTo(sdk, queries, k).json.value
    decreases n
  {
    if k < n - 1 {
      assert LastSuccess(sdk, queries, n - 1, k);
      LastSuccessWins(sdk, queries, n - 1, k);
    }
  }

  /** The list form returns False exactly when no GET raised and no query succeeded. */
  lemma NoDataWhenNothingSucceeded(sdk: Sdk, queries: seq<string>)
    ensures FetchedData(sdk, Many(queries)) == Ok(NoData) <==>
              (forall k :: 0 <= k < |queries| ==> !ReplyTo(sdk, queries, k).ConnectionFailed?)
              && (forall k :: 0 <= k < |queries| ==> !Succeeded(ReplyTo(sdk, queries, k)))
    ensures FetchedData(sdk, Many(queries)).Ok? && FetchedData(sdk, Many(queries)).value.Keyed? ==>
              FetchedData(sdk, Many(queries)).value.bodies == Collected(sdk, queries, |queries|).value
              && |FetchedData(sdk, Many(queries)).value.bodies| > 0
  {
    var n := |queries|;
    RaisesOnlyOnConnectError(sdk, queries, n);
    if Collected(sdk, queries, n).Ok? {
      KeysAreSucceededQueries(sdk, queries, n);
      var responses := Collected(sdk, queries, n).value;
      if |responses| == 0 {
        forall k | 0 <= k < n ensures !Succeeded(ReplyTo(sdk, queries, k)) {
          assert queries[k] !in responses;
        }
      } else {
        var q :| q in responses;
        assert SucceededAmong(sdk, queries, n, q);
      }
    }
  }
}
