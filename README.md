# A model of the Dominion client `ai.py`

`ai.py` is a small client that plays the deck-building card game Dominion
against a game server over a websocket, speaking JSON-RPC. It does the
following:
- It turns the HTTP endpoint it is given into a websocket address
  (`parse_http_endpoint`).
- It acknowledges `StartGame`.
- On every `StartTurn` it plays the turn and then buys a card:
  - `action_phase` plays each Market or Village the server deals, one at a
    time, and takes the new hand and treasure from each reply;
  - `play_turn` then plays every Copper, Silver and Gold, adding up their
    `money_value_map` values;
  - `find_cards_to_buy` picks a card by a threshold ladder;
  - the client sends one `Buy` per chosen card, appends it to the global
    `deck`, and sends `EndTurn`.
- It stops on `GameOver` and closes the connection.

This project models that core in Dafny.

- **The connection** is two sequences. `inbox` holds the messages the server
  will send, and `conn.recv()` takes the first of them. `trace` holds every
  request the client has sent, and `conn.send()` appends to it.
- **How a run ends.** `Status` records how a turn or the whole session ended:
  - `Running`: it ended normally and control continues;
  - `Finished`: the loop hit the `break` on `GameOver`;
  - `Crashed`: the source raised KeyError on a missing field;
  - `Blocked`: the client waits in `recv` for a reply the server never sends.
- **Termination.** Every pass of the loop and every action-card play
  receives a message. So the model's recursions terminate by the length of
  `inbox`, and a finite inbox always ends in one of the non-`Running`
  statuses.
- **Pure specification** (modules `Cards`, `Strategy`, `Endpoint`,
  `Protocol`, `Turn` and `Session`):
  - `Turn.ActionPhase`, `Turn.TreasurePhase` and `Turn.PlayTurn` describe
    a turn;
  - `Session.Step` describes one pass of `run_server`'s loop, and
    `Session.Run` the whole loop.
- **Step-by-step program** (module `Client`): the class `Client.Agent`
  holds the state the program mutates as fields: `deck`, `turnCount`,
  `trace`, `inbox` and `closed`. Its methods run the same loops and
  recursion the source does. Each method is proved to end in exactly the
  state the matching specification function describes.

The model follows what this file does. A fuller client would check the
supply, count actions, handle attacks and rematches; this one does not:
- Buys are requested without a supply check.
- The strategy always names one card.
- `Buy` and `EndTurn` are sent without waiting for their replies. Those
  replies reach the main loop later, carry no method, and are skipped there.
- The action phase plays every Market and Village with no actions counter.
- `FatalError`, `Attack` and the `error` field get no special treatment.
- `GameOver` ends the session without a rematch.

## Model

| member | source | states |
|---|---|---|
| Cards.MoneyValue | ai.py:12-16 | a treasure's value is its `money_value_map` entry: 1 for Copper, 3 for Gold, always between 1 and 3 |
| Cards.TreasuresAreExactlyTheValuedCards | ai.py:12-16 | the cards the buy phase plays are exactly the keys of `money_value_map`, so the lookup on line 51 never raises |
| Cards.IsTreasure | ai.py:50 | the buy phase's test for a treasure; true for exactly the keys of `money_value_map` (`Cards.TreasuresAreExactlyTheValuedCards`) |
| Cards.IsActionCard | ai.py:30 | the action phase's test: a Market or a Village; `Turn.FirstAction` finds the first card that passes it |
| Cards.InitialDeck | ai.py:17 | the starting deck has 10 cards: 7 Coppers, then 3 Estates |
| Strategy.Cascade | ai.py:61-69 | running the reassignments in order ends on the card of the last one whose condition holds, or on the start card when none holds |
| Strategy.FindCardsToBuy | ai.py:60-70 | always exactly one card: Province from 8 up, Gold for 6-7, Silver for 3-5, Copper below 3; equal to the reference ladder `BuyTier` |
| Strategy.LadderDecides | ai.py:61-69 | the source's cascade from "Province" agrees with the reference if/else ladder for every amount, negative ones included |
| Strategy.SilverAtFiveIsRedundant | ai.py:66-67 | removing the `< 5` reassignment changes the decision for no amount |
| Strategy.BuyLadderIsMonotone | ai.py:60-70 | more money never buys a lower-ranked card |
| Endpoint.Find | ai.py:20 | the index of the first occurrence of the separator, with no occurrence before it; `None` exactly when it does not occur |
| Endpoint.Split | ai.py:20-21 | Python's `str.split`: at least one piece; the pieces joined by the separator give back the string; no piece contains the separator; two or more pieces exactly when it occurs; the first piece is the text before its first occurrence |
| Endpoint.ParseHttpEndpoint | ai.py:19-21 | `None` (IndexError) exactly when "http" does not occur; otherwise the address starts with "ws", holds no "?name=", and after "ws" holds no "http" and is a prefix of the text after the first "http" |
| Endpoint.ParsedAddressEnds | ai.py:20-21 | the address's value for every endpoint containing "http": after "ws" it is the text after the first "http", up to the next "http", the first "?name=" or the end of the endpoint |
| Endpoint.HostEndsAtHttp | ai.py:20 | `split("http")[1]` runs from the first "http" to the next one, or to the end |
| Endpoint.CutEndsAtNameQuery | ai.py:21 | `split("?name=")[0]` of "ws" + host keeps the whole host, or stops at the host's first "?name=" |
| Endpoint.CutKeepsSchemeAndHost | ai.py:21 | cutting `"ws" + host` at "?name=" keeps the "ws" and a prefix of the host, and leaves no "?name=" |
| Endpoint.SecondPieceFollowsFirstOccurrence | ai.py:20 | `split("http")[1]` is a prefix of the text right after the first "http" |
| Endpoint.ParsePlainEndpoint | ai.py:19-21 | "http://h:1/?name=player1" gives "ws://h:1/" |
| Endpoint.ParseSecureEndpoint | ai.py:19-21 | "https://h:1/" gives "wss://h:1/" |
| Endpoint.ParseEndpointWithoutHttp | ai.py:19-21 | "ws://h:1/" has no "http": IndexError (`None`) |
| Protocol.BuyMessages | ai.py:98-102 | one `Buy` per card to buy, in list order |
| Protocol.CountEndTurnsAppend | ai.py:104-109 | the `EndTurn`s of two stretches of requests add up |
| Turn.FirstAction | ai.py:29-30 | the index of the first Market or Village, with none before it; `None` exactly when the hand holds neither |
| Turn.ActionPhase | ai.py:28-41 | with no action card in hand: no request, hand and treasure unchanged. Otherwise its first request plays the first action card. Only action cards are played. One reply is received per play unless the client blocks. A phase that ends normally leaves a hand without action cards |
| Turn.ActionRound | ai.py:31-40 | after the first action card is played: no reply blocks, a reply without `result` raises KeyError, otherwise the phase continues from the reply's hand and treasure |
| Turn.TreasurePlays | ai.py:49-55 | at most one `Play` per card, and only of Copper, Silver or Gold |
| Turn.TreasureIndices | ai.py:49-50 | the positions of the hand's treasures, strictly increasing, each one a treasure and every treasure among them |
| Turn.TreasurePlaysFollowHand | ai.py:49-55 | the k-th treasure `Play` is of the k-th treasure card of the hand: one play per treasure, in hand order |
| Turn.TreasurePlaysAppend | ai.py:49-55 | the plays and the sum of a hand split in two are those of the parts, concatenated and added |
| Turn.TreasureSum | ai.py:49-51 | the money the buy phase counts: equal to the value of the plays it sends (`Turn.TreasureSumIsPlayedValue`), at most 3 per play and 0 exactly when nothing is played (`Turn.TreasureSumBounds`) |
| Turn.TreasureSumIsPlayedValue | ai.py:49-51 | the money counted is exactly the value of the cards played |
| Turn.TreasureSumBounds | ai.py:49-51 | each played treasure adds at most 3, and the sum is 0 exactly when no treasure is played |
| Turn.TreasurePhase | ai.py:49-57 | one `Play` per treasure card of the hand, in hand order. It completes exactly when the server answers every play, and then returns the starting money plus `TreasureSum` of the hand, having received one reply per play. A run that blocks has sent the first plays of the hand, one more than the replies available |
| Turn.PlayTurn | ai.py:43-58 | `play_turn` on the hand and the pending messages. It takes messages only from the front of the inbox. What it sends and returns is stated by `Turn.PlayTurnEffects` and `Turn.PlayTurnPhases` |
| Turn.PlayTurnEffects | ai.py:43-58 | a turn sends only plays. A completed turn returns the action phase's treasure plus the value of the treasures left in hand, and sends the action plays followed by one play per such treasure |
| Turn.PlayTurnPhases | ai.py:43-58 | unfolding lemma for `Turn.PlayTurn`: `play_turn` is the action phase from 0 followed by the treasure loop on the replies left |
| Session.BuyAndEndTurn | ai.py:95-109 | the deck gains exactly the card `find_cards_to_buy` chose, and the trace gains exactly `Buy(card)` then `EndTurn`, one more end of turn |
| Session.TakeTurn | ai.py:92-109 | the `StartTurn` branch after the count: crash without a hand, otherwise play the turn and buy when it completes. It takes messages only from the front of the inbox. Its effects are stated by `Session.TakeTurnEffects` and `Session.TurnThenBuy` |
| Session.TakeTurnEffects | ai.py:92-109 | a turn only appends to deck and trace. A completed turn adds one ladder card and one `EndTurn`. A turn that blocks or crashes adds neither |
| Session.TurnThenBuy | ai.py:94-109 | unfolding lemma for `Session.TakeTurn`: a turn whose plays were all answered goes on to buy with the money `play_turn` returned |
| Session.Step | ai.py:77-111 | one pass of the loop receives at least one message, so the inbox strictly shrinks. What each method does is stated by `Session.StepEffects` and the per-method lemmas below |
| Session.StepEffects | ai.py:76-111 | a pass of the loop only appends to deck and trace and only adds ladder cards. `turn_count` grows by at most one. Unless the session blocks or crashes, each turn counted added one card and one `EndTurn` |
| Session.SkipWithoutMethod | ai.py:84-85 | a message without a method changes nothing and sends nothing |
| Session.AcknowledgeStartGame | ai.py:86-90 | `StartGame` is answered with its own id and nothing else changes; without an id, KeyError |
| Session.StartTurnCountsOneTurn | ai.py:91-92 | `StartTurn` adds exactly one to `turn_count`, however the turn ends |
| Session.StartTurnPlaysATurn | ai.py:91-94 | `StartTurn` counts the turn, then plays it with the dealt hand on the messages after it |
| Session.CompletedTurnEndsWithBuyThenEndTurn | ai.py:91-109 | a completed `StartTurn` appends the turn's plays, then exactly one `Buy` of the chosen card, then exactly one `EndTurn`, and appends that card to the deck |
| Session.GameOverStops | ai.py:110-111 | `GameOver` ends the session at once, sending nothing |
| Session.IgnoreOtherMethods | ai.py:86-111 | any other method is ignored |
| Session.Run | ai.py:76-111 | the loop always ends: finished, blocked or crashed |
| Session.RunUnfolds | ai.py:76-81 | unfolding lemma for `Session.Run`: one more pass of the loop does not change where the session ends |
| Session.RunKeepsDeckPrefix | ai.py:17-103 | the deck is append-only over the whole session |
| Session.RunOnlyAddsLadderCards | ai.py:95-103 | every card the session adds to the deck is Province, Gold, Silver or Copper |
| Session.RunOnlyAppendsToTrace | ai.py:73-113 | requests are only ever appended |
| Session.FinishedSessionCountsTurns | ai.py:91-111 | in a session ended by `GameOver`, the cards bought, the turns counted and the `EndTurn`s sent are equal in number |
| Session.OneTurnGame | ai.py:73-113 | a whole game of one turn with a Market and a Gold gives this trace: acknowledge, play the Market, play the Gold, buy a Silver with 4 coins, end the turn. It then finishes with the Silver added to the deck |
| Client.Agent.constructor | ai.py:17 | the process starts with the initial deck, nothing sent |
| Client.Agent.Send | ai.py:34 | `conn.send`: the request is appended to the trace and nothing else changes |
| Client.Agent.Recv | ai.py:35 | `conn.recv`: the first pending message is taken off the inbox; with nothing pending it returns `None`, the call that would wait forever |
| Client.Agent.ActionPhase | ai.py:28-41 | the scanning loop and recursion end in the state `Turn.ActionPhase` describes: same status, treasure, hand, requests and remaining messages |
| Client.Agent.PlayAction | ai.py:31-40 | one play-and-reply round ends as `Turn.ActionPhase` describes |
| Client.Agent.PlayTreasures | ai.py:49-57 | the treasure loop ends as `Turn.TreasurePhase` describes |
| Client.Agent.PlayTurn | ai.py:43-58 | `play_turn` ends as `Turn.PlayTurn` describes |
| Client.Agent.BuyAndEndTurn | ai.py:95-109 | the buy loop and the `EndTurn` leave deck and trace as `Session.BuyAndEndTurn` describes |
| Client.Agent.TakeTurn | ai.py:92-109 | the `StartTurn` branch ends as `Session.TakeTurn` describes |
| Client.Agent.ServeOne | ai.py:77-111 | one pass of the loop ends as `Session.Step` describes, or blocks when nothing arrives |
| Client.Agent.RunServer | ai.py:73-113 | `run_server` from `turn_count = 0` ends in the state `Session.Run` describes. The connection is closed exactly when the session finished on `GameOver` |

## Left out

- The websocket itself (`create_connection`, `make_connection`), JSON encoding and decoding, `main` and its argument parsing, and every `print`. These are I/O; the connection is modelled by `inbox` and `trace`.
- Request ids and the `jsonrpc` field of outgoing requests, and the reuse of one `payload` dictionary per loop pass. The `payload.pop("params")` on line 105 always succeeds, because the buy list is never empty (`Strategy.FindCardsToBuy`).
- Protocol.Inbound: a message is reduced to the four fields the code reads:
  - `params["hand"]`;
  - `id`;
  - `result["hand"]` and `result["treasure"]` together;
  - `method`.
  
  A `StartTurn` without `params`, or a `result` without `hand` or `treasure`, counts as the field missing (KeyError). A JSON `null` id is not told apart from a missing one. Ids are limited to integers, while the source echoes whatever JSON id it receives, strings included. Hands and treasures are taken as lists of names and integers, as the code assumes.
- Turn.ActionPhase: the model does not capture Python's recursion limit, which would raise RecursionError after about a thousand nested action plays.
- Treating a reply that never arrives as a blocked client (`Blocked`). Timeouts and connection failures do not exist in the source.
- The `TURN COUNT` line printed at the end. `turn_count` itself is modelled.
- Attacks, rematches, a strategy gated on the game's state, supply checks, an average draw value and merging of partial state updates. A fuller client would have these; this file has none of them, so the model has nothing to model there.
