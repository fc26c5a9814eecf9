/** What one turn of the client does, as functions of the hand it is dealt and
    of the replies the server has queued: `action_phase` (ai.py lines 28-41)
    and `play_turn` (lines 43-58). The class Agent in module Client runs the same
    turn step by step and is proved to agree with these functions. */
module Turn {
  import opened Wrappers
  import opened Sequences
  import opened Cards
  import opened Protocol

  /** The index of the first Market or Village in hand order. */
  function FirstAction(hand: seq<Card>): (k: Option<nat>)
    ensures k.Some? ==> k.value < |hand| && IsActionCard(hand[k.value])
    ensures k.Some? ==> forall j :: 0 <= j < k.value ==> !IsActionCard(hand[j])
    ensures k.None? ==> forall j :: 0 <= j < |hand| ==> !IsActionCard(hand[j])
  {
    if hand == [] then None
    else if IsActionCard(hand[0]) then Some(0)
    else match FirstAction(hand[1..])
      case None => None
      case Some(k) => Some(k + 1)
  }

  /** Where the action phase ends: its status, the treasure and hand it hands
      on to the buy phase, the requests it sent and the replies left over. */
  datatype ActionRun = ActionRun(
    status: Status,
    treasure: int,
    hand: seq<Card>,
    sent: seq<Outbound>,
    rest: seq<Inbound>)

  /** `action_phase`: while the hand holds a Market or a Village, play the
      first one and replace hand and treasure by the reply's `result`. A reply
      without `result` raises KeyError; a reply that never comes blocks. */
  function ActionPhase(hand: seq<Card>, treasure: int, inbox: seq<Inbound>): (a: ActionRun)
    ensures a.status in {Running, Blocked, Crashed}
    ensures IsSuffix(a.rest, inbox)
    ensures forall m :: m in a.sent ==> m.Play? && IsActionCard(m.card)
    ensures FirstAction(hand).None? ==> a == ActionRun(Running, treasure, hand, [], inbox)
    ensures FirstAction(hand).Some? ==> a.sent != [] && a.sent[0] == Play(hand[FirstAction(hand).value])
    ensures a.status == Running ==> FirstAction(a.hand).None?
    ensures a.status != Blocked ==> |a.sent| == |inbox| - |a.rest|
    ensures a.status == Blocked ==> a.rest == [] && |a.sent| == |inbox| + 1
    decreases |inbox|
  {
    match FirstAction(hand)
    case None => ActionRun(Running, treasure, hand, [], inbox)
    case Some(k) =>
      var play := Play(hand[k]);
      if inbox == [] then ActionRun(Blocked, treasure, hand, [play], [])
      else match inbox[0].result
        case None => ActionRun(Crashed, treasure, hand, [play], inbox[1..])
        case Some(reply) =>
          var next := ActionPhase(reply.hand, reply.treasure, inbox[1..]);
          next.(sent := [play] + next.sent)
  }

  /** One round of the action phase once `hand[k]` is its first action card:
      blocked without a reply, KeyError on a reply without `result`, and
      otherwise the rest of the phase from the reply's hand and treasure. */
  lemma ActionRound(hand: seq<Card>, k: nat, treasure: int, inbox: seq<Inbound>)
    requires FirstAction(hand) == Some(k)
    ensures inbox == [] ==>
      ActionPhase(hand, treasure, inbox) == ActionRun(Blocked, treasure, hand, [Play(hand[k])], [])
    ensures inbox != [] && inbox[0].result.None? ==>
      ActionPhase(hand, treasure, inbox) == ActionRun(Crashed, treasure, hand, [Play(hand[k])], inbox[1..])
    ensures inbox != [] && inbox[0].result.Some? ==>
      var reply := inbox[0].result.value;
      var next := ActionPhase(reply.hand, reply.treasure, inbox[1..]);
      ActionPhase(hand, treasure, inbox) == next.(sent := [Play(hand[k])] + next.sent)
  {
  }

  /** The `Play` requests of the buy phase: one per Copper, Silver or Gold, in
      hand order. */
  function TreasurePlays(hand: seq<Card>): (plays: seq<Outbound>)
    ensures |plays| <= |hand|
    ensures forall m :: m in plays ==> m.Play? && IsTreasure(m.card)
  {
    if hand == [] then []
    else (if IsTreasure(hand[0]) then [Play(hand[0])] else []) + TreasurePlays(hand[1..])
  }

  /** The positions of the treasure cards of `hand` from position `i` on, in
      increasing order: every treasure there, and nothing else. */
  function TreasureIndices(hand: seq<Card>, i: nat): (idx: seq<nat>)
    requires i <= |hand|
    ensures forall k :: 0 <= k < |idx| ==> i <= idx[k] < |hand| && IsTreasure(hand[idx[k]])
    ensures forall k, l :: 0 <= k < l < |idx| ==> idx[k] < idx[l]
    ensures forall j :: i <= j < |hand| && IsTreasure(hand[j]) ==> j in idx
    decreases |hand| - i
  {
    if i == |hand| then []
    else (if IsTreasure(hand[i]) then [i] else []) + TreasureIndices(hand, i + 1)
  }

  /** The buy phase plays the treasures of the hand one by one in hand order:
      its k-th `Play` is of the k-th treasure card of the hand. */
  lemma {:induction false} TreasurePlaysFollowHand(hand: seq<Card>, i: nat)
    requires i <= |hand|
    ensures var plays := TreasurePlays(hand[i..]);
            var idx := TreasureIndices(hand, i);
            |plays| == |idx| && forall k :: 0 <= k < |idx| ==> plays[k] == Play(hand[idx[k]])
    decreases |hand| - i
  {
    if i < |hand| {
      TreasurePlaysFollowHand(hand, i + 1);
      assert hand[i..][0] == hand[i] && hand[i..][1..] == hand[i + 1..];
      var head := if IsTreasure(hand[i]) then [Play(hand[i])] else [];
      var headIdx: seq<nat> := if IsTreasure(hand[i]) then [i] else [];
      assert TreasurePlays(hand[i..]) == head + TreasurePlays(hand[i + 1..]);
      assert TreasureIndices(hand, i) == headIdx + TreasureIndices(hand, i + 1);
    }
  }

  /** The money the buy phase adds up: `money_value_map` over the treasures of
      the hand; every other card contributes nothing. */
  function TreasureSum(hand: seq<Card>): (sum: nat)
  {
    if hand == [] then 0
    else (if IsTreasure(hand[0]) then MoneyValue(hand[0]) else 0) + TreasureSum(hand[1..])
  }

  /** The buying power of a sequence of treasure plays. */
  function PlayedValue(plays: seq<Outbound>): int
    requires forall m :: m in plays ==> m.Play? && IsTreasure(m.card)
  {
    if plays == [] then 0
    else
      assert plays[0] in plays;
      MoneyValue(plays[0].card) + PlayedValue(plays[1..])
  }

  lemma {:induction false} TreasurePlaysAppend(a: seq<Card>, b: seq<Card>)
    ensures TreasurePlays(a + b) == TreasurePlays(a) + TreasurePlays(b)
    ensures TreasureSum(a + b) == TreasureSum(a) + TreasureSum(b)
  {
    if a == [] {
      assert a + b == b;
    } else {
      var ab := a + b;
      assert ab[0] == a[0] && ab[1..] == a[1..] + b;
      TreasurePlaysAppend(a[1..], b);
      var head := if IsTreasure(a[0]) then [Play(a[0])] else [];
      assert TreasurePlays(ab) == head + TreasurePlays(a[1..] + b);
      assert TreasurePlays(a) == head + TreasurePlays(a[1..]);
    }
  }

  /** Scanning one more card of the hand adds its play and its value when it
      is a treasure. */
  lemma TreasureStep(hand: seq<Card>, i: nat)
    requires i < |hand|
    ensures TreasurePlays(hand[..i + 1]) ==
      TreasurePlays(hand[..i]) + (if IsTreasure(hand[i]) then [Play(hand[i])] else [])
    ensures TreasureSum(hand[..i + 1]) ==
      TreasureSum(hand[..i]) + (if IsTreasure(hand[i]) then MoneyValue(hand[i]) else 0)
  {
    assert hand[..i + 1] == hand[..i] + [hand[i]];
    TreasurePlaysAppend(hand[..i], [hand[i]]);
  }

  /** The plays for the first `i` cards are the first plays of the hand. */
  lemma TreasurePlaysPrefix(hand: seq<Card>, i: nat)
    requires i <= |hand|
    ensures |TreasurePlays(hand[..i])| <= |TreasurePlays(hand)|
    ensures TreasurePlays(hand)[..|TreasurePlays(hand[..i])|] == TreasurePlays(hand[..i])
  {
    assert hand == hand[..i] + hand[i..];
    TreasurePlaysAppend(hand[..i], hand[i..]);
  }

  /** The money counted is exactly the value of the cards played: the buy
      phase never counts a card it does not play nor plays one it does not
      count. */
  lemma {:induction false} TreasureSumIsPlayedValue(hand: seq<Card>)
    ensures TreasureSum(hand) == PlayedValue(TreasurePlays(hand))
  {
    if hand != [] {
      TreasureSumIsPlayedValue(hand[1..]);
      var head := if IsTreasure(hand[0]) then [Play(hand[0])] else [];
      PlayedValueAppend(head, TreasurePlays(hand[1..]));
    }
  }

  lemma {:induction false} PlayedValueAppend(a: seq<Outbound>, b: seq<Outbound>)
    requires forall m :: m in a ==> m.Play? && IsTreasure(m.card)
    requires forall m :: m in b ==> m.Play? && IsTreasure(m.card)
    ensures PlayedValue(a + b) == PlayedValue(a) + PlayedValue(b)
  {
    if a == [] {
      assert a + b == b;
    } else {
      assert (a + b)[1..] == a[1..] + b;
      assert forall m :: m in a[1..] ==> m in a;
      PlayedValueAppend(a[1..], b);
    }
  }

  /** Each card adds at most 3 (a Gold), and a hand without treasures adds
      nothing. */
  lemma {:induction false} TreasureSumBounds(hand: seq<Card>)
    ensures TreasureSum(hand) <= 3 * |TreasurePlays(hand)| <= 3 * |hand|
    ensures TreasurePlays(hand) == [] <==> TreasureSum(hand) == 0
  {
    if hand != [] {
      TreasureSumBounds(hand[1..]);
    }
  }

  /** Where `play_turn` ends: its status, the money it returns, the requests it
      sent and the replies left over. */
  datatype TurnRun = TurnRun(status: Status, money: int, sent: seq<Outbound>, rest: seq<Inbound>)

  /** The loop of `play_turn` (lines 49-57): one `Play` per treasure card in
      hand order, each adding its value to `money` and each waiting for a
      reply it does not read. It blocks on the first play the server leaves
      unanswered. */
  function TreasurePhase(hand: seq<Card>, money: int, inbox: seq<Inbound>): (t: TurnRun)
    ensures t.status in {Running, Blocked}
    ensures IsSuffix(t.rest, inbox)
    ensures forall m :: m in t.sent ==> m.Play? && IsTreasure(m.card)
    ensures t.status == Running <==> |TreasurePlays(hand)| <= |inbox|
    ensures t.status == Running ==> t.money == money + PlayedValue(t.sent) && |t.sent| == |inbox| - |t.rest|
    ensures t.status == Blocked ==> t.rest == [] && |t.sent| == |inbox| + 1
    ensures t.status == Running ==> t.sent == TreasurePlays(hand) && t.money == money + TreasureSum(hand)
    ensures t.status == Blocked ==> t.sent == TreasurePlays(hand)[..|inbox| + 1]
  {
    var plays := TreasurePlays(hand);
    TreasureSumIsPlayedValue(hand);
    if |inbox| < |plays| then
      assert forall m :: m in plays[..|inbox| + 1] ==> m in plays;
      TurnRun(Blocked, money, plays[..|inbox| + 1], [])
    else
      TurnRun(Running, money + TreasureSum(hand), plays, inbox[|plays|..])
  }

  /** `play_turn`: the action phase from a treasure of 0, then the treasure
      plays of the hand it leaves. */
  function PlayTurn(hand: seq<Card>, inbox: seq<Inbound>): (t: TurnRun)
    ensures IsSuffix(t.rest, inbox)
  {
    var a := ActionPhase(hand, 0, inbox);
    if a.status != Running then TurnRun(a.status, a.treasure, a.sent, a.rest)
    else
      var b := TreasurePhase(a.hand, a.treasure, a.rest);
      b.(sent := a.sent + b.sent)
  }

  /** A turn only sends plays, one per reply it receives unless it blocks, and
      a turn that completes returns the action phase's treasure plus the
      value of the treasures of the hand the action phase leaves, having
      played exactly those treasures in hand order. */
  lemma PlayTurnEffects(hand: seq<Card>, inbox: seq<Inbound>)
    ensures var t := PlayTurn(hand, inbox);
            t.status in {Running, Blocked, Crashed} &&
            (forall m :: m in t.sent ==> m.Play?)
    ensures var t := PlayTurn(hand, inbox);
            t.status == Running ==>
              var a := ActionPhase(hand, 0, inbox);
              a.status == Running &&
              t.money == a.treasure + TreasureSum(a.hand) &&
              t.sent == a.sent + TreasurePlays(a.hand) &&
              |t.sent| == |inbox| - |t.rest|
  {
    var a := ActionPhase(hand, 0, inbox);
    if a.status == Running {
      TreasureSumIsPlayedValue(a.hand);
    }
  }

  /** `play_turn` is its two phases run one after the other: a turn the
      action phase ends early ends there, and otherwise the treasure plays
      continue on the replies the action phase left. */
  lemma PlayTurnPhases(hand: seq<Card>, inbox: seq<Inbound>)
    ensures var a := ActionPhase(hand, 0, inbox);
            a.status != Running ==> PlayTurn(hand, inbox) == TurnRun(a.status, a.treasure, a.sent, a.rest)
    ensures var a := ActionPhase(hand, 0, inbox);
            a.status == Running ==>
              var b := TreasurePhase(a.hand, a.treasure, a.rest);
              PlayTurn(hand, inbox) == b.(sent := a.sent + b.sent)
  {
  }

}
