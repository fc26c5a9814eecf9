/** The client process as the source runs it: the process-wide `deck`, the
    `turn_count` of `run_server`, and a connection whose outgoing requests
    are appended to `trace` and whose incoming messages are taken from the
    front of `inbox` (ai.py lines 17 and 28-113). Each method is proved to do
    what the functions of modules Turn and Session say. */
module Client {
  import opened Wrappers
  import opened Sequences
  import opened Cards
  import opened Protocol
  import opened Strategy
  import Turn
  import Session

  class Agent {
    /** `deck`: the global list the client appends its purchases to. */
    var deck: seq<Card>
    /** `turn_count` of `run_server`. */
    var turnCount: nat
    /** Every request sent on the connection, in order. */
    var trace: seq<Outbound>
    /** The messages the server has sent and the client has not yet received. */
    var inbox: seq<Inbound>
    /** Whether `conn.close()` has been called. */
    var closed: bool

    /** A fresh process connected to a server that will send `messages`. */
    constructor (messages: seq<Inbound>)
      ensures deck == InitialDeck() && turnCount == 0
      ensures trace == [] && inbox == messages && !closed
    {
      deck := InitialDeck();
      turnCount := 0;
      trace := [];
      inbox := messages;
      closed := false;
    }

    /** The loop state of `run_server` that these fields hold. */
    function Current(status: Status): Session.State
      reads this
    {
      Session.State(status, deck, turnCount, trace, inbox)
    }

    /** `conn.send`: the request goes out, nothing else changes. */
    method Send(m: Outbound)
      modifies this`trace
      ensures trace == old(trace) + [m]
    {
      trace := trace + [m];
    }

    /** `conn.recv`: the next message, or `None` when the server has nothing
        more to send and the call would wait forever. */
    method Recv() returns (m: Option<Inbound>)
      modifies this`inbox
      ensures old(inbox) == [] ==> m.None? && inbox == []
      ensures old(inbox) != [] ==> m == Some(old(inbox)[0]) && inbox == old(inbox)[1..]
    {
      if inbox == [] {
        m := None;
      } else {
        m := Some(inbox[0]);
        inbox := inbox[1..];
      }
    }

    /** `action_phase`: play the first Market or Village of the hand, take the
        new hand and treasure from the reply, and start over. */
    method ActionPhase(hand: seq<Card>, treasure: int) returns (status: Status, treasureOut: int, handOut: seq<Card>)
      modifies this`trace, this`inbox
      ensures var a := Turn.ActionPhase(hand, treasure, old(inbox));
              status == a.status && treasureOut == a.treasure && handOut == a.hand &&
              trace == old(trace) + a.sent && inbox == a.rest
      decreases |inbox|, 1
    {
      var i := 0;
      while i < |hand|
        invariant 0 <= i <= |hand|
        invariant forall j :: 0 <= j < i ==> !IsActionCard(hand[j])
      {
        if IsActionCard(hand[i]) {
          status, treasureOut, handOut := PlayAction(hand, i, treasure);
          return;
        }
        i := i + 1;
      }
      return Running, treasure, hand;
    }

    /** One round of `action_phase` once `hand[k]` is its first Market or
        Village: play it, wait for the reply, go on with the reply's hand. */
    method PlayAction(hand: seq<Card>, k: nat, treasure: int) returns (status: Status, treasureOut: int, handOut: seq<Card>)
      requires Turn.FirstAction(hand) == Some(k)
      modifies this`trace, this`inbox
      ensures var a := Turn.ActionPhase(hand, treasure, old(inbox));
              status == a.status && treasureOut == a.treasure && handOut == a.hand &&
              trace == old(trace) + a.sent && inbox == a.rest
      decreases |inbox|, 0
    {
      Turn.ActionRound(hand, k, treasure, inbox);
      Send(Play(hand[k]));
      var reply := Recv();
      if reply.None? {
        return Blocked, treasure, hand;
      }
      if reply.value.result.None? {
        return Crashed, treasure, hand;
      }
      var result := reply.value.result.value;
      ghost var next := Turn.ActionPhase(result.hand, result.treasure, inbox);
      status, treasureOut, handOut := ActionPhase(result.hand, result.treasure);
      AppendGrouping(old(trace), [Play(hand[k])], next.sent);
    }

    /** `play_turn`: the action phase from a treasure of 0, then the buy
        phase's treasure plays. */
    method PlayTurn(hand: seq<Card>) returns (status: Status, money: int)
      modifies this`trace, this`inbox
      ensures var t := Turn.PlayTurn(hand, old(inbox));
              status == t.status && trace == old(trace) + t.sent && inbox == t.rest &&
              (status == Running ==> money == t.money)
    {
      ghost var t := Turn.PlayTurn(hand, inbox);
      ghost var a := Turn.ActionPhase(hand, 0, inbox);
      Turn.PlayTurnPhases(hand, inbox);
      var rest: seq<Card>;
      status, money, rest := ActionPhase(hand, 0);
      if status != Running {
        assert t == Turn.TurnRun(a.status, a.treasure, a.sent, a.rest);
        return;
      }
      ghost var b := Turn.TreasurePhase(a.hand, a.treasure, a.rest);
      assert t == b.(sent := a.sent + b.sent);
      assert rest == a.hand && money == a.treasure && inbox == a.rest;
      assert trace == old(trace) + a.sent;
      status, money := PlayTreasures(rest, money);
      AppendGrouping(old(trace), a.sent, b.sent);
    }

    /** The loop of `play_turn` (lines 49-57): one `Play` per Copper, Silver or
        Gold in hand order, each adding its value to the money, each followed
        by a reply that is received and not read. Blocks when the server stops
        replying. */
    method PlayTreasures(hand: seq<Card>, money0: int) returns (status: Status, money: int)
      modifies this`trace, this`inbox
      ensures var t := Turn.TreasurePhase(hand, money0, old(inbox));
              status == t.status && trace == old(trace) + t.sent && inbox == t.rest &&
              (status == Running ==> money == t.money)
    {
      money := money0;
      ghost var played: seq<Outbound> := [];
      for i := 0 to |hand|
        invariant played == Turn.TreasurePlays(hand[..i])
        invariant trace == old(trace) + played
        invariant money == money0 + Turn.TreasureSum(hand[..i])
        invariant |played| <= |old(inbox)| && inbox == old(inbox)[|played|..]
      {
        Turn.TreasureStep(hand, i);
        if IsTreasure(hand[i]) {
          money := money + MoneyValue(hand[i]);
          Send(Play(hand[i]));
          AppendGrouping(old(trace), played, [Play(hand[i])]);
          played := played + [Play(hand[i])];
          var reply := Recv();
          if reply.None? {
            Turn.TreasurePlaysPrefix(hand, i + 1);
            return Blocked, money;
          }
        }
      }
      assert hand[..|hand|] == hand;
      return Running, money;
    }

    /** The `StartTurn` branch of `run_server` after `turn_count += 1` (lines
        94-109): play the turn, then buy. `params["hand"]` missing raises
        KeyError. */
    method TakeTurn(hand: Option<seq<Card>>) returns (status: Status)
      modifies this`deck, this`trace, this`inbox
      ensures Current(status) == Session.TakeTurn(old(Current(Running)), hand)
    {
      if hand.None? {
        return Crashed;
      }
      var money;
      status, money := PlayTurn(hand.value);
      if status != Running {
        return;
      }
      BuyAndEndTurn(money);
    }

    /** Lines 95-109: one `Buy` per card `find_cards_to_buy` chooses, each
        appended to the deck without waiting for a reply, then `EndTurn`. */
    method BuyAndEndTurn(money: int)
      modifies this`deck, this`trace
      ensures Current(Running) == Session.BuyAndEndTurn(old(Current(Running)), money)
    {
      var cards := FindCardsToBuy(money);
      for i := 0 to |cards|
        invariant deck == old(deck) + cards[..i]
        invariant trace == old(trace) + BuyMessages(cards[..i])
      {
        Send(Buy(cards[i]));
        deck := deck + [cards[i]];
        assert cards[..i + 1] == cards[..i] + [cards[i]];
      }
      Send(EndTurn);
      assert cards[..|cards|] == cards;
    }

    /** One pass of the `while(True)` loop of `run_server` (lines 77-111):
        receive a message and dispatch on its method. `Running` means the loop
        goes on; `Finished` is the `break` on `GameOver`. */
    method ServeOne() returns (status: Status)
      modifies this`deck, this`turnCount, this`trace, this`inbox
      ensures old(inbox) == [] ==> Current(status) == old(Current(Blocked))
      ensures old(inbox) != [] ==> Current(status) == Session.Step(old(Current(Running)))
    {
      ghost var before := Current(Running);
      var message := Recv();
      if message.None? {
        return Blocked;
      }
      var m := message.value;
      if m.methodName.None? {
        Session.SkipWithoutMethod(before);
        return Running;
      }
      var name := m.methodName.value;
      if name == "StartGame" {
        Session.AcknowledgeStartGame(before);
        if m.id.None? {
          return Crashed;
        }
        Send(Ack(m.id.value));
        return Running;
      } else if name == "StartTurn" {
        Session.StartTurnPlaysATurn(before);
        turnCount := turnCount + 1;
        status := TakeTurn(m.hand);
      } else if name == "GameOver" {
        Session.GameOverStops(before);
        return Finished;
      } else {
        Session.IgnoreOtherMethods(before);
        return Running;
      }
    }

    /** `run_server`: `turn_count = 0`, then passes of the loop until one does
        not go on; the connection is closed after `GameOver` only. */
    method RunServer() returns (status: Status)
      requires !closed
      modifies this
      ensures Current(status) == Session.Run(Session.State(Running, old(deck), 0, old(trace), old(inbox)))
      ensures closed <==> status == Finished
    {
      turnCount := 0;
      ghost var final := Session.Run(Current(Running));
      status := Running;
      while status == Running
        invariant !closed
        invariant Session.Run(Current(status)) == final
        decreases |inbox|, if status == Running then 1 else 0
      {
        if inbox != [] {
          Session.RunUnfolds(Current(Running));
        }
        status := ServeOne();
      }
      if status == Finished {
        closed := true;
      }
    }
  }

}
