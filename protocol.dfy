/** The JSON-RPC messages the client reads and writes, reduced to the fields
    its code looks at (ai.py lines 28-41, 43-58 and 73-113). */
module Protocol {
  import opened Wrappers
  import opened Cards

  /** The `result` of the server's reply to an action-card `Play`. */
  datatype PlayResult = PlayResult(hand: seq<Card>, treasure: int)

  /** An inbound message. `methodName` (the `method` field) is absent for replies to the client's own
      requests; `id` is what a `StartGame` acknowledgement echoes; `hand` is
      `params["hand"]` of a `StartTurn`; `result` is what a `Play` reply
      carries. A field the source indexes and the message lacks makes the
      source raise KeyError. */
  datatype Inbound = Inbound(
    methodName: Option<string>,
    id: Option<int>,
    hand: Option<seq<Card>>,
    result: Option<PlayResult>)

  /** An outbound message: a card `Play`, a card `Buy`, `EndTurn` (sent without
      `params`), or the acknowledgement of `StartGame`, which echoes its id
      with an empty `result`. */
  datatype Outbound = Play(card: Card) | Buy(card: Card) | EndTurn | Ack(id: int)

  /** How far a phase or the whole session got. `Running`: it ended normally
      and control continues. `Finished`: `GameOver` ended the session.
      `Blocked`: the client waits for a reply that the server never sends.
      `Crashed`: the source raised KeyError on a missing field. */
  datatype Status = Running | Finished | Blocked | Crashed

  /** One `Buy` request per card, in list order (the loop of lines 98-103). */
  function BuyMessages(cards: seq<Card>): (msgs: seq<Outbound>)
    ensures |msgs| == |cards|
    ensures forall k :: 0 <= k < |cards| ==> msgs[k] == Buy(cards[k])
  {
    if cards == [] then [] else [Buy(cards[0])] + BuyMessages(cards[1..])
  }

  /** The number of `EndTurn` requests in a trace. */
  function CountEndTurns(trace: seq<Outbound>): (n: nat)
    ensures n <= |trace|
  {
    if trace == [] then 0
    else (if trace[0] == EndTurn then 1 else 0) + CountEndTurns(trace[1..])
  }

  lemma {:induction false} CountEndTurnsAppend(a: seq<Outbound>, b: seq<Outbound>)
    ensures CountEndTurns(a + b) == CountEndTurns(a) + CountEndTurns(b)
  {
    if a == [] {
      assert a + b == b;
    } else {
      assert (a + b)[1..] == a[1..] + b;
      CountEndTurnsAppend(a[1..], b);
    }
  }

  /** A trace without `EndTurn` adds no end of turn. */
  lemma {:induction false} NoEndTurnCountsZero(trace: seq<Outbound>)
    requires forall m :: m in trace ==> m != EndTurn
    ensures CountEndTurns(trace) == 0
  {
    if trace != [] {
      assert trace[0] in trace;
      assert forall m :: m in trace[1..] ==> m in trace;
      NoEndTurnCountsZero(trace[1..]);
    }
  }

}
