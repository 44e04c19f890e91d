/** The sentinel loop every stage runs: read a line, let the agent answer,
    and stop once the answer contains the stage's end keyword. The language
    model and the agent executor are an oracle: each turn carries what they
    produced, and `step` says what the turn does to the agent's state and
    whether it completed without raising. */
module Conversation {
  import opened Text

  /** The constructor arguments every stage keeps in its snapshot. */
  datatype AgentConfig = AgentConfig(rosDistro: string, modelName: string, maxInteractionLimit: int, verbose: bool)

  /** Why a loop stopped: a response held the keyword, `input()` ran out of
      lines (it raises `EOFError`), or the turn raised. */
  datatype End = Sentinel | Exhausted | Raised

  /** How many turns the loop took, why it stopped and the state it left. */
  datatype Run<S> = Run(taken: nat, end: End, state: S)

  /** The loop `while kw not in response: response = agent(input())`,
      started with `response = ""`, over the remaining turns. */
  function Converse<S, T>(s: S, turns: seq<T>, step: (S, T) -> (S, bool), response: T -> string, kw: string): (r: Run<S>)
    ensures r.taken <= |turns|
    decreases |turns|
  {
    if turns == [] then Run(0, Exhausted, s)
    else
      var (s', ok) := step(s, turns[0]);
      if !ok then Run(1, Raised, s')
      else if Contains(response(turns[0]), kw) then Run(1, Sentinel, s')
      else
        var r := Converse(s', turns[1..], step, response, kw);
        Run(r.taken + 1, r.end, r.state)
  }

  /** The loop takes at least one turn when there is input, never more than
      there are, stops at the first response that holds the keyword and
      runs out of input only when no response held it. */
  lemma {:induction false} ConverseStops<S, T>(s: S, turns: seq<T>, step: (S, T) -> (S, bool), response: T -> string, kw: string)
    ensures var r := Converse(s, turns, step, response, kw);
      r.taken <= |turns|
      && (|turns| > 0 ==> r.taken >= 1)
      && (r.end == Sentinel ==> r.taken >= 1 && Contains(response(turns[r.taken - 1]), kw))
      && (forall k :: 0 <= k < r.taken - 1 ==> !Contains(response(turns[k]), kw))
      && (r.end == Exhausted ==> r.taken == |turns| && forall k :: 0 <= k < |turns| ==> !Contains(response(turns[k]), kw))
    decreases |turns|
  {
    if turns != [] {
      var (s', ok) := step(s, turns[0]);
      if ok && !Contains(response(turns[0]), kw) {
        ConverseStops(s', turns[1..], step, response, kw);
        var r := Converse(s', turns[1..], step, response, kw);
        assert forall k :: 1 <= k < |turns| ==> turns[k] == turns[1..][k - 1];
      }
    }
  }

  /** When no turn raises, the loop ends exactly at the first response with
      the keyword, or runs out of input when there is none. */
  lemma {:induction false} ConverseFirstSentinel<S, T>(s: S, turns: seq<T>, step: (S, T) -> (S, bool), response: T -> string, kw: string, i: nat)
    requires i < |turns| && Contains(response(turns[i]), kw)
    requires forall k :: 0 <= k < i ==> !Contains(response(turns[k]), kw)
    requires forall s0: S, t: T :: step(s0, t).1
    ensures Converse(s, turns, step, response, kw).taken == i + 1
    ensures Converse(s, turns, step, response, kw).end == Sentinel
    decreases i
  {
    var (s', ok) := step(s, turns[0]);
    assert ok;
    if i > 0 {
      assert !Contains(response(turns[0]), kw);
      ConverseFirstSentinel(s', turns[1..], step, response, kw, i - 1);
    }
  }
}
