/** The message loop of `run_server` (ai.py lines 73-113) as a step function
    over the queue of inbound messages: skip messages without a method,
    acknowledge `StartGame`, play a turn on `StartTurn`, stop on `GameOver`,
    ignore everything else. */
module Session {
  import opened Wrappers
  import opened Sequences
  import opened Cards
  import opened Protocol
  import opened Strategy
  import opened Turn

  /** The state the loop carries: the process-wide `deck`, `turn_count`, the
      requests sent so far and the inbound messages not yet received. */
  datatype State = State(
    status: Status,
    deck: seq<Card>,
    turnCount: nat,
    trace: seq<Outbound>,
    inbox: seq<Inbound>)

  /** The cards `find_cards_to_buy` can ever name. */
  predicate IsLadderCard(card: Card)
  {
    card in ["Province", "Gold", "Silver", "Copper"]
  }

  /** The `StartTurn` branch after `turn_count += 1`: play the turn, then buy.
      A missing `params["hand"]` raises KeyError. */
  function TakeTurn(s: State, hand: Option<seq<Card>>): (t: State)
    requires s.status == Running
    ensures IsSuffix(t.inbox, s.inbox)
  {
    match hand
    case None => s.(status := Crashed)
    case Some(h) =>
      var turn := PlayTurn(h, s.inbox);
      var played := s.(trace := s.trace + turn.sent, inbox := turn.rest);
      if turn.status != Running then played.(status := turn.status)
      else BuyAndEndTurn(played, turn.money)
  }

  /** A turn only appends, keeps `turn_count`, and either completes (one card
      bought, one `EndTurn` sent) or ends the session without buying. */
  lemma TakeTurnEffects(s: State, hand: Option<seq<Card>>)
    requires s.status == Running
    ensures var t := TakeTurn(s, hand);
      IsPrefix(s.deck, t.deck) && IsPrefix(s.trace, t.trace) &&
      t.turnCount == s.turnCount &&
      (forall k :: |s.deck| <= k < |t.deck| ==> IsLadderCard(t.deck[k])) &&
      (t.status == Running ==>
        |t.deck| == |s.deck| + 1 && CountEndTurns(t.trace) == CountEndTurns(s.trace) + 1) &&
      (t.status != Running ==>
        t.status != Finished && t.deck == s.deck && CountEndTurns(t.trace) == CountEndTurns(s.trace))
  {
    if hand.Some? {
      var turn := PlayTurn(hand.value, s.inbox);
      PlayTurnEffects(hand.value, s.inbox);
      PlaysAddNoEndTurn(s.trace, turn.sent);
      var played := s.(trace := s.trace + turn.sent, inbox := turn.rest);
      if turn.status == Running {
        TurnThenBuy(s, hand.value);
        var t := BuyAndEndTurn(played, turn.money);
        PrefixTransitive(s.trace, played.trace, t.trace);
        assert t.deck[|s.deck|] == BuyTier(turn.money);
      } else {
        assert TakeTurn(s, hand) == played.(status := turn.status);
      }
    }
  }

  /** Lines 95-109: ask `find_cards_to_buy`, send one `Buy` per card and append
      it to the deck (no supply check, no reply awaited), then send `EndTurn`.
      The turn ends with exactly one `Buy` followed by exactly one `EndTurn`. */
  function BuyAndEndTurn(s: State, money: int): (t: State)
    ensures t.status == s.status && t.inbox == s.inbox && t.turnCount == s.turnCount
    ensures t.deck == s.deck + [BuyTier(money)]
    ensures IsPrefix(s.trace, t.trace)
    ensures t.trace[|s.trace|..] == [Buy(BuyTier(money)), EndTurn]
    ensures CountEndTurns(t.trace) == CountEndTurns(s.trace) + 1
  {
    var cards := FindCardsToBuy(money);
    var closing := BuyMessages(cards) + [EndTurn];
    assert closing == [Buy(cards[0]), EndTurn];
    ClosingTrace(s.trace, closing, cards[0]);
    s.(deck := s.deck + cards, trace := s.trace + closing)
  }

  lemma PlaysAddNoEndTurn(trace: seq<Outbound>, plays: seq<Outbound>)
    requires forall m :: m in plays ==> m.Play?
    ensures IsPrefix(trace, trace + plays)
    ensures CountEndTurns(trace + plays) == CountEndTurns(trace)
  {
    NoEndTurnCountsZero(plays);
    CountEndTurnsAppend(trace, plays);
  }

  /** Appending one `Buy` and one `EndTurn` adds one end of turn. */
  lemma ClosingTrace(trace: seq<Outbound>, closing: seq<Outbound>, card: Card)
    requires closing == [Buy(card), EndTurn]
    ensures IsPrefix(trace, trace + closing)
    ensures (trace + closing)[|trace|..] == closing
    ensures CountEndTurns(trace + closing) == CountEndTurns(trace) + 1
  {
    CountEndTurnsAppend(trace, closing);
    assert closing[1..] == [EndTurn];
    assert [EndTurn][1..] == [];
    assert (trace + closing)[..|trace|] == trace;
  }

  /** One pass of the `while(True)` loop: receive a message and dispatch on
      its method. */
  function Step(s: State): (t: State)
    requires s.status == Running && s.inbox != []
    ensures |t.inbox| < |s.inbox|
  {
    var m := s.inbox[0];
    var next := s.(inbox := s.inbox[1..]);
    match m.methodName
    case None => next
    case Some(name) =>
      if name == "StartGame" then
        match m.id
        case None => next.(status := Crashed)
        case Some(id) => next.(trace := s.trace + [Ack(id)])
      else if name == "StartTurn" then
        TakeTurn(next.(turnCount := s.turnCount + 1), m.hand)
      else if name == "GameOver" then
        next.(status := Finished)
      else
        next
  }

  /** `t` extends `s`: deck and trace only grow, and every card added to the
      deck is one the buy ladder names. */
  predicate Extends(s: State, t: State)
  {
    IsPrefix(s.deck, t.deck) && IsPrefix(s.trace, t.trace) &&
    forall k :: |s.deck| <= k < |t.deck| ==> IsLadderCard(t.deck[k])
  }

  /** From `s` to `t`, each turn counted bought one card and sent one
      `EndTurn`. */
  predicate CountsTurns(s: State, t: State)
  {
    t.turnCount >= s.turnCount &&
    |t.deck| - |s.deck| == t.turnCount - s.turnCount == CountEndTurns(t.trace) - CountEndTurns(s.trace)
  }

  /** A pass of the loop only appends to deck and trace, adds at most one to
      `turn_count`, and, unless it ends the session abnormally, adds one card
      and one `EndTurn` for each turn it counts. */
  lemma StepEffects(s: State)
    requires s.status == Running && s.inbox != []
    ensures Extends(s, Step(s))
    ensures Step(s).turnCount == s.turnCount || Step(s).turnCount == s.turnCount + 1
    ensures Step(s).status == Running || Step(s).status == Finished ==> CountsTurns(s, Step(s))
  {
    if s.inbox[0].methodName == Some("StartTurn") {
      StartTurnEffects(s);
    } else {
      OtherMessageEffects(s);
    }
  }

  lemma StartTurnEffects(s: State)
    requires s.status == Running && s.inbox != [] && s.inbox[0].methodName == Some("StartTurn")
    ensures Extends(s, Step(s))
    ensures Step(s).turnCount == s.turnCount + 1
    ensures Step(s).status == Running || Step(s).status == Finished ==> CountsTurns(s, Step(s))
  {
    StartTurnPlaysATurn(s);
    TakeTurnEffects(s.(turnCount := s.turnCount + 1, inbox := s.inbox[1..]), s.inbox[0].hand);
  }

  lemma OtherMessageEffects(s: State)
    requires s.status == Running && s.inbox != [] && s.inbox[0].methodName != Some("StartTurn")
    ensures Extends(s, Step(s))
    ensures Step(s).turnCount == s.turnCount
    ensures Step(s).deck == s.deck && CountEndTurns(Step(s).trace) == CountEndTurns(s.trace)
  {
    var m := s.inbox[0];
    var t := Step(s);
    if m.methodName == Some("StartGame") && m.id.Some? {
      assert t.trace == s.trace + [Ack(m.id.value)];
      CountEndTurnsAppend(s.trace, [Ack(m.id.value)]);
      assert CountEndTurns([Ack(m.id.value)]) == 0;
      assert t.trace[..|s.trace|] == s.trace;
    } else {
      assert t.trace == s.trace && t.deck == s.deck;
    }
  }

  /** A message without a method is skipped: no reply, nothing changes. */
  lemma SkipWithoutMethod(s: State)
    requires s.status == Running && s.inbox != [] && s.inbox[0].methodName.None?
    ensures Step(s) == s.(inbox := s.inbox[1..])
  {
  }

  /** `StartGame` is answered with an empty result under its own id, and
      nothing else changes; without an id the source raises KeyError. */
  lemma AcknowledgeStartGame(s: State)
    requires s.status == Running && s.inbox != [] && s.inbox[0].methodName == Some("StartGame")
    ensures s.inbox[0].id.Some? ==>
      Step(s) == s.(trace := s.trace + [Ack(s.inbox[0].id.value)], inbox := s.inbox[1..])
    ensures s.inbox[0].id.None? ==> Step(s).status == Crashed
  {
  }

  /** `StartTurn` adds exactly one to `turn_count`, whatever the turn does. */
  lemma StartTurnCountsOneTurn(s: State)
    requires s.status == Running && s.inbox != [] && s.inbox[0].methodName == Some("StartTurn")
    ensures Step(s).turnCount == s.turnCount + 1
  {
    StartTurnPlaysATurn(s);
    TakeTurnEffects(s.(turnCount := s.turnCount + 1, inbox := s.inbox[1..]), s.inbox[0].hand);
  }

  /** `GameOver` ends the loop without sending anything. */
  lemma GameOverStops(s: State)
    requires s.status == Running && s.inbox != [] && s.inbox[0].methodName == Some("GameOver")
    ensures Step(s) == s.(status := Finished, inbox := s.inbox[1..])
    ensures Run(s) == s.(status := Finished, inbox := s.inbox[1..])
  {
  }

  /** Any other method is ignored. */
  lemma IgnoreOtherMethods(s: State)
    requires s.status == Running && s.inbox != [] && s.inbox[0].methodName.Some?
    requires s.inbox[0].methodName.value !in {"StartGame", "StartTurn", "GameOver"}
    ensures Step(s) == s.(inbox := s.inbox[1..])
  {
  }

  /** `StartTurn` counts the turn, then plays it on the messages after it. */
  lemma StartTurnPlaysATurn(s: State)
    requires s.status == Running && s.inbox != [] && s.inbox[0].methodName == Some("StartTurn")
    ensures Step(s) == TakeTurn(s.(turnCount := s.turnCount + 1, inbox := s.inbox[1..]), s.inbox[0].hand)
  {
    assert s.inbox[0].methodName.value != "StartGame";
  }

  /** A turn whose plays all got their replies goes on to buy. */
  lemma TurnThenBuy(s: State, hand: seq<Card>)
    requires s.status == Running && PlayTurn(hand, s.inbox).status == Running
    ensures var turn := PlayTurn(hand, s.inbox);
            TakeTurn(s, Some(hand)) ==
            BuyAndEndTurn(s.(trace := s.trace + turn.sent, inbox := turn.rest), turn.money)
  {
    var turn := PlayTurn(hand, s.inbox);
    var played := s.(trace := s.trace + turn.sent, inbox := turn.rest);
    assert TakeTurn(s, Some(hand)) == BuyAndEndTurn(played, turn.money);
  }

  /** A `StartTurn` whose turn completes sends, after the turn's plays, exactly
      one `Buy` for the card `find_cards_to_buy` chose and then one `EndTurn`,
      and appends that card to the deck. */
  lemma CompletedTurnEndsWithBuyThenEndTurn(s: State)
    requires s.status == Running && s.inbox != [] && s.inbox[0].methodName == Some("StartTurn")
    requires s.inbox[0].hand.Some?
    requires PlayTurn(s.inbox[0].hand.value, s.inbox[1..]).status == Running
    ensures var turn := PlayTurn(s.inbox[0].hand.value, s.inbox[1..]);
            var card := BuyTier(turn.money);
            Step(s) == State(Running, s.deck + [card], s.turnCount + 1,
                             s.trace + turn.sent + [Buy(card), EndTurn], turn.rest)
  {
    var hand := s.inbox[0].hand.value;
    var turn := PlayTurn(hand, s.inbox[1..]);
    var counted := s.(turnCount := s.turnCount + 1, inbox := s.inbox[1..]);
    StartTurnPlaysATurn(s);
    TurnThenBuy(counted, hand);
    var played := counted.(trace := s.trace + turn.sent, inbox := turn.rest);
    var t := BuyAndEndTurn(played, turn.money);
    assert t.trace == t.trace[..|played.trace|] + t.trace[|played.trace|..];
  }

  /** The whole loop: step until `GameOver`, a KeyError, or a `recv` that
      never returns. */
  function Run(s: State): (r: State)
    ensures r.status != Running
    ensures s.status != Running ==> r == s
    decreases |s.inbox|
  {
    if s.status != Running then s
    else if s.inbox == [] then s.(status := Blocked)
    else Run(Step(s))
  }

  /** One more pass of the loop leaves the outcome of the session unchanged. */
  lemma RunUnfolds(s: State)
    requires s.status == Running && s.inbox != []
    ensures Run(s) == Run(Step(s))
  {
  }

  /** The state `run_server` starts from: `turn_count = 0`, nothing sent. */
  function Start(deck: seq<Card>, inbox: seq<Inbound>): State
  {
    State(Running, deck, 0, [], inbox)
  }

  /** The deck never shrinks and no card already in it changes. */
  lemma {:induction false} RunKeepsDeckPrefix(s: State)
    ensures IsPrefix(s.deck, Run(s).deck)
    decreases |s.inbox|
  {
    if s.status == Running && s.inbox != [] {
      var t := Step(s);
      StepEffects(s);
      RunKeepsDeckPrefix(t);
      PrefixTransitive(s.deck, t.deck, Run(t).deck);
    }
  }

  /** Every card the session adds to the deck is one the buy ladder names. */
  lemma {:induction false} RunOnlyAddsLadderCards(s: State)
    ensures forall k :: |s.deck| <= k < |Run(s).deck| ==> IsLadderCard(Run(s).deck[k])
    decreases |s.inbox|
  {
    if s.status == Running && s.inbox != [] {
      var t := Step(s);
      StepEffects(s);
      RunOnlyAddsLadderCards(t);
      RunKeepsDeckPrefix(t);
      var final := Run(t).deck;
      forall k | |s.deck| <= k < |final|
        ensures IsLadderCard(final[k])
      {
        if k < |t.deck| {
          assert final[k] == final[..|t.deck|][k] == t.deck[k];
        }
      }
    }
  }

  /** Requests are only ever appended to the trace. */
  lemma {:induction false} RunOnlyAppendsToTrace(s: State)
    ensures IsPrefix(s.trace, Run(s).trace)
    decreases |s.inbox|
  {
    if s.status == Running && s.inbox != [] {
      var t := Step(s);
      StepEffects(s);
      RunOnlyAppendsToTrace(t);
      PrefixTransitive(s.trace, t.trace, Run(t).trace);
    }
  }

  /** When the session ends with `GameOver`, every `StartTurn` it counted was a
      complete turn: it bought exactly one card and sent exactly one
      `EndTurn`. */
  lemma {:induction false} FinishedSessionCountsTurns(s: State)
    requires s.status == Running
    requires Run(s).status == Finished
    ensures |Run(s).deck| - |s.deck| == Run(s).turnCount - s.turnCount
    ensures Run(s).turnCount - s.turnCount == CountEndTurns(Run(s).trace) - CountEndTurns(s.trace)
    decreases |s.inbox|
  {
    var t := Step(s);
    StepEffects(s);
    if t.status == Running {
      FinishedSessionCountsTurns(t);
    }
  }

  /** The messages of a one-turn game: a reply with no method and nothing
      the client reads, and the end of the game. */
  const NoMethodReply := Inbound(None, None, None, None)
  const GameOverMessage := Inbound(Some("GameOver"), None, None, None)

  /** The action phase of that game: the Market is played and the reply
      leaves a Gold and a treasure of 1. */
  lemma OneTurnGameActions(rest: seq<Inbound>)
    ensures ActionPhase(["Market", "Gold"], 0,
                        [Inbound(None, None, None, Some(PlayResult(["Gold"], 1)))] + rest) ==
            ActionRun(Running, 1, ["Gold"], [Play("Market")], rest)
  {
    var inbox := [Inbound(None, None, None, Some(PlayResult(["Gold"], 1)))] + rest;
    assert FirstAction(["Market", "Gold"]) == Some(0);
    assert FirstAction(["Gold"]) == None;
    assert inbox[1..] == rest;
  }

  /** The turn of that game: after the Market, the Gold is played and adds 3;
      its reply is received and not read. */
  lemma OneTurnGameTurn()
    ensures PlayTurn(["Market", "Gold"], OneTurnInbox) ==
            TurnRun(Running, 4, [Play("Market"), Play("Gold")],
                    [NoMethodReply, NoMethodReply, GameOverMessage])
  {
    var rest := [NoMethodReply, NoMethodReply, NoMethodReply, GameOverMessage];
    assert OneTurnInbox == [Inbound(None, None, None, Some(PlayResult(["Gold"], 1)))] + rest;
    OneTurnGameActions(rest);
    assert TreasurePlays(["Gold"]) == [Play("Gold")];
    assert TreasureSum(["Gold"]) == 3;
    assert TreasurePhase(["Gold"], 1, rest) ==
           TurnRun(Running, 4, [Play("Gold")], [NoMethodReply, NoMethodReply, GameOverMessage]);
  }

  /** The trace and deck at the end of that turn. */
  const OneTurnTrace: seq<Outbound> := [Ack(7), Play("Market"), Play("Gold"), Buy("Silver"), EndTurn]
  const OneTurnInbox: seq<Inbound> :=
    [Inbound(None, None, None, Some(PlayResult(["Gold"], 1))),
     NoMethodReply, NoMethodReply, NoMethodReply, GameOverMessage]

  lemma OneTurnGameStep(deck: seq<Card>)
    ensures Step(State(Running, deck, 0, [Ack(7)],
                       [Inbound(Some("StartTurn"), None, Some(["Market", "Gold"]), None)] + OneTurnInbox)) ==
            State(Running, deck + ["Silver"], 1, OneTurnTrace,
                  [NoMethodReply, NoMethodReply, GameOverMessage])
  {
    var inbox := [Inbound(Some("StartTurn"), None, Some(["Market", "Gold"]), None)] + OneTurnInbox;
    var s := State(Running, deck, 0, [Ack(7)], inbox);
    assert inbox[1..] == OneTurnInbox;
    StartTurnPlaysATurn(s);
    var counted := State(Running, deck, 1, [Ack(7)], OneTurnInbox);
    assert Step(s) == TakeTurn(counted, Some(["Market", "Gold"]));
    OneTurnGameTurn();
    TurnThenBuy(counted, ["Market", "Gold"]);
    var played := State(Running, deck, 1, [Ack(7), Play("Market"), Play("Gold")],
                        [NoMethodReply, NoMethodReply, GameOverMessage]);
    OneTurnGameBuy(played);
  }

  lemma OneTurnGameBuy(played: State)
    requires played.trace == [Ack(7), Play("Market"), Play("Gold")]
    ensures BuyAndEndTurn(played, 4) == played.(deck := played.deck + ["Silver"], trace := OneTurnTrace)
  {
    var t := BuyAndEndTurn(played, 4);
    assert BuyTier(4) == "Silver";
    assert t.trace == t.trace[..|played.trace|] + t.trace[|played.trace|..];
  }

  /** After the turn, the three replies without a method are skipped and
      `GameOver` ends the session. */
  lemma OneTurnGameEnd(s: State)
    requires s.status == Running && s.inbox == [NoMethodReply, NoMethodReply, GameOverMessage]
    ensures Run(s) == s.(status := Finished, inbox := [])
  {
    RunUnfolds(s);
    var s1 := s.(inbox := [NoMethodReply, GameOverMessage]);
    assert Step(s) == s1;
    RunUnfolds(s1);
    var s2 := s.(inbox := [GameOverMessage]);
    assert Step(s1) == s2;
    RunUnfolds(s2);
  }

  /** A game of one turn: the server starts the game, deals a Market and a
      Gold, answers the Market with a hand of just the Gold and a treasure of
      1, answers the Gold, the Buy and the EndTurn without a method, and ends
      the game. The client acknowledges, plays the Market, then the Gold,
      buys a Silver with its 4 coins, ends its turn, and adds the Silver to
      its deck. */
  lemma OneTurnGame()
    ensures Run(Start(InitialDeck(), [
        Inbound(Some("StartGame"), Some(7), None, None),
        Inbound(Some("StartTurn"), None, Some(["Market", "Gold"]), None)] + OneTurnInbox)) ==
      State(Finished, InitialDeck() + ["Silver"], 1, OneTurnTrace, [])
  {
    var inbox := [Inbound(Some("StartGame"), Some(7), None, None),
                  Inbound(Some("StartTurn"), None, Some(["Market", "Gold"]), None)] + OneTurnInbox;
    var s0 := Start(InitialDeck(), inbox);
    var s1 := State(Running, InitialDeck(), 0, [Ack(7)], inbox[1..]);
    assert inbox[1..] == [Inbound(Some("StartTurn"), None, Some(["Market", "Gold"]), None)] + OneTurnInbox;
    assert Step(s0) == s1;
    RunUnfolds(s0);
    RunUnfolds(s1);
    OneTurnGameStep(InitialDeck());
    OneTurnGameEnd(Step(s1));
  }

}
