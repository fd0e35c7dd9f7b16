/**
 * The shape shared by the two node loops of the star model:
 *
 *     while not self.converged():
 *         <round body>
 *     <strategy>.node_finished()
 *
 * `Loop` runs that shape for a given round body and a given sequence of
 * reads of the finished flag, for at most `fuel` rounds (the loops have no
 * bound of their own). The round body is a parameter, so the lemmas here
 * hold for any body; each loop's module supplies its own body and proves
 * what the lemmas ask of it.
 */
module RoundLoop {
  import opened Wrappers
  import opened Flame

  /** The events of one pass through a loop body, the loop's variables after it, and the exception that ended it, if any. */
  datatype Round<S> = Round(events: seq<Event>, state: S, raised: Option<Exception>)

  /**
   * The loop from round `i` on with variables `st`: `finished(i)` is the
   * flag read that decides whether round `i` runs.
   */
  function Loop<S>(finished: nat -> bool, body: (S, nat) -> Round<S>, st: S, i: nat, fuel: nat): (Outcome, seq<Event>)
    decreases fuel
  {
    if fuel == 0 then (Running, [])
    else if finished(i) then (Done, [CheckFinished(true), NodeFinished])
    else
      var round := body(st, i);
      if round.raised.Some? then (Raised(round.raised.value), [CheckFinished(false)] + round.events)
      else
        var rest := Loop(finished, body, round.state, i + 1, fuel - 1);
        (rest.0, [CheckFinished(false)] + round.events + rest.1)
  }

  /** The events of round `i` behind the flag read that started it. */
  function RoundLog<S>(body: (S, nat) -> Round<S>, st: S, i: nat): seq<Event>
  {
    [CheckFinished(false)] + body(st, i).events
  }

  lemma AppendAssoc<T>(a: seq<T>, b: seq<T>, c: seq<T>)
    ensures a + (b + c) == (a + b) + c
  {
  }

  /** A round that raised ends the loop with its exception. */
  lemma LoopRaises<S>(finished: nat -> bool, body: (S, nat) -> Round<S>, st: S, i: nat, fuel: nat,
                      before: seq<Event>, events: seq<Event>, next: S, e: Exception)
    requires 0 < fuel && !finished(i) && body(st, i) == Round(events, next, Some(e))
    ensures Loop(finished, body, st, i, fuel).0 == Raised(e)
    ensures before + ([CheckFinished(false)] + events) == before + Loop(finished, body, st, i, fuel).1
  {
  }

  /** A round that raised nothing is followed by the loop from the next round, with the variables it left. */
  lemma LoopContinues<S>(finished: nat -> bool, body: (S, nat) -> Round<S>, st: S, i: nat, fuel: nat,
                         before: seq<Event>, events: seq<Event>, next: S)
    requires 0 < fuel && !finished(i) && body(st, i) == Round(events, next, None)
    ensures var rest := Loop(finished, body, next, i + 1, fuel - 1);
            Loop(finished, body, st, i, fuel).0 == rest.0
            && before + Loop(finished, body, st, i, fuel).1 == (before + ([CheckFinished(false)] + events)) + rest.1
  {
    var rest := Loop(finished, body, next, i + 1, fuel - 1);
    AppendAssoc(before, [CheckFinished(false)] + events, rest.1);
  }

  /** A loop with fuel left logs at least its first flag read. */
  lemma LoopSpeaks<S>(finished: nat -> bool, body: (S, nat) -> Round<S>, st: S, i: nat, fuel: nat)
    requires 0 < fuel
    ensures 0 < |Loop(finished, body, st, i, fuel).1|
  {
  }

  /** A log is empty or starts with a flag read and has at least two events. */
  predicate StartsWithCheck(log: seq<Event>)
  {
    log == [] || (2 <= |log| && log[0].CheckFinished?)
  }

  /** Every loop log starts with a flag read, when no round body is silent. */
  lemma LoopStartsWithCheck<S>(finished: nat -> bool, body: (S, nat) -> Round<S>, st: S, i: nat, fuel: nat)
    requires forall s, j :: body(s, j).events != []
    ensures StartsWithCheck(Loop(finished, body, st, i, fuel).1)
  {
    if 0 < fuel && !finished(i) {
      assert body(st, i).events != [];
    }
  }

  /**
   * The induction over rounds: a property of (variables, log) that holds
   * for the empty log and for the final [flag read, node_finished], for a
   * round that raised, and for a round followed by a loop log that has the
   * property for the variables the round left, holds for every loop log.
   */
  lemma {:induction false} LoopKeeps<S>(P: (S, seq<Event>) -> bool, finished: nat -> bool, body: (S, nat) -> Round<S>,
                                        st: S, i: nat, fuel: nat)
    requires forall s, j :: body(s, j).events != []
    requires forall s :: P(s, []) && P(s, [CheckFinished(true), NodeFinished])
    requires forall s, j :: body(s, j).raised.Some? ==> P(s, RoundLog(body, s, j))
    requires forall s, j, rest :: body(s, j).raised.None? && StartsWithCheck(rest) && P(body(s, j).state, rest)
               ==> P(s, RoundLog(body, s, j) + rest)
    ensures P(st, Loop(finished, body, st, i, fuel).1)
    decreases fuel
  {
    if 0 < fuel && !finished(i) {
      var round := body(st, i);
      if round.raised.None? {
        var rest := Loop(finished, body, round.state, i + 1, fuel - 1).1;
        LoopKeeps(P, finished, body, round.state, i + 1, fuel - 1);
        LoopStartsWithCheck(finished, body, round.state, i + 1, fuel - 1);
        assert P(st, RoundLog(body, st, i) + rest);
      }
    }
  }

  /** The loop raises nothing but what its rounds raise. */
  lemma {:induction false} LoopRaisesOnly<S>(finished: nat -> bool, body: (S, nat) -> Round<S>, st: S, i: nat, fuel: nat,
                                             raisable: set<Exception>)
    requires forall s, j :: body(s, j).raised.Some? ==> body(s, j).raised.value in raisable
    ensures Loop(finished, body, st, i, fuel).0.Raised? ==> Loop(finished, body, st, i, fuel).0.exception in raisable
    decreases fuel
  {
    if 0 < fuel && !finished(i) && body(st, i).raised.None? {
      LoopRaisesOnly(finished, body, body(st, i).state, i + 1, fuel - 1, raisable);
    }
  }

  /** A run that ended normally: its last two events are a true flag read and node_finished. */
  predicate EndsFinished(log: seq<Event>)
  {
    2 <= |log| && log[|log| - 2] == CheckFinished(true) && log[|log| - 1] == NodeFinished
  }

  /** node_finished occurs at most once, as the last event. */
  predicate NodeFinishedLast(log: seq<Event>)
  {
    forall k :: 0 <= k < |log| && log[k] == NodeFinished ==> k == |log| - 1
  }

  predicate NoNodeFinished(events: seq<Event>)
  {
    forall k :: 0 <= k < |events| ==> events[k] != NodeFinished
  }

  /**
   * node_finished is called only when the loop ended normally, exactly then
   * the log ends with a true flag read and node_finished, and it is called
   * at most once, as the last event.
   */
  predicate FinishesOnlyAtExit(outcome: Outcome, log: seq<Event>)
  {
    (outcome.Done? <==> EndsFinished(log)) && NodeFinishedLast(log) && (!outcome.Done? ==> NoNodeFinished(log))
  }

  lemma AppendFinished(pre: seq<Event>, rest: seq<Event>)
    requires NoNodeFinished(pre) && 0 < |pre| && StartsWithCheck(rest) && NodeFinishedLast(rest)
    ensures NodeFinishedLast(pre + rest)
    ensures EndsFinished(pre + rest) <==> EndsFinished(rest)
    ensures NoNodeFinished(rest) ==> NoNodeFinished(pre + rest)
  {
    var log := pre + rest;
    forall k | 0 <= k < |log| && log[k] == NodeFinished
      ensures k == |log| - 1 && !NoNodeFinished(rest)
    {
      assert log[k] == rest[k - |pre|];
    }
    if rest != [] {
      assert log[|log| - 2] == rest[|rest| - 2] && log[|log| - 1] == rest[|rest| - 1];
    } else {
      assert log == pre && log[|log| - 1] == pre[|pre| - 1];
    }
  }

  /**
   * When no round body calls node_finished, the loop calls it only when it
   * ends normally, and then once, as the last effect after a true flag
   * read; a run that raised or ran out of fuel never calls it.
   */
  lemma {:induction false} NodeFinishedOnlyAtExit<S>(finished: nat -> bool, body: (S, nat) -> Round<S>, st: S, i: nat, fuel: nat)
    requires forall s, j :: body(s, j).events != [] && NoNodeFinished(body(s, j).events)
    ensures var run := Loop(finished, body, st, i, fuel);
            FinishesOnlyAtExit(run.0, run.1)
    decreases fuel
  {
    if 0 < fuel && !finished(i) {
      var round := body(st, i);
      var pre := RoundLog(body, st, i);
      assert NoNodeFinished(pre) by {
        assert NoNodeFinished(round.events);
        forall k | 0 < k < |pre| ensures pre[k] != NodeFinished {
          assert pre[k] == round.events[k - 1];
        }
      }
      if round.raised.None? {
        NodeFinishedOnlyAtExit(finished, body, round.state, i + 1, fuel - 1);
        LoopStartsWithCheck(finished, body, round.state, i + 1, fuel - 1);
        AppendFinished(pre, Loop(finished, body, round.state, i + 1, fuel - 1).1);
      } else {
        AppendFinished(pre, []);
        assert pre + [] == pre;
      }
    }
  }

  /** The first, last and boundary events of a concatenation, and where each neighbouring pair comes from. */
  lemma Concat(pre: seq<Event>, rest: seq<Event>)
    ensures var log := pre + rest;
            (0 < |pre| ==> log[0] == pre[0] && log[|pre| - 1] == pre[|pre| - 1])
            && (0 < |rest| ==> log[|pre|] == rest[0] && log[|log| - 1] == rest[|rest| - 1])
            && (rest == [] ==> log == pre)
            && forall j, k :: 0 <= j < k < |log| && k == j + 1 ==>
                 if k < |pre| then log[j] == pre[j] && log[k] == pre[k]
                 else if |pre| <= j then log[j] == rest[j - |pre|] && log[k] == rest[k - |pre|]
                 else log[j] == pre[|pre| - 1] && log[k] == rest[0]
  {
  }
}
