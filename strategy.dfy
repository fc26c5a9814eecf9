/** The buy decision of the client, `find_cards_to_buy` (ai.py lines 60-70):
    starting from "Province", a cascade of `if money_count < X: card_to_buy = Y`
    reassignments in which the last condition that holds decides the card. */
module Strategy {
  import opened Wrappers
  import opened Cards

  /** One reassignment `if money_count < below: card_to_buy = card`. */
  datatype Step = Step(below: int, card: Card)

  /** The reassignments of `find_cards_to_buy`, in source order, including the
      second Silver step at 5. */
  const Ladder: seq<Step> := [Step(8, "Gold"), Step(6, "Silver"), Step(5, "Silver"), Step(3, "Copper")]

  /** The card `find_cards_to_buy` starts from before any reassignment. */
  const Start: Card := "Province"

  /** The index of the last step whose condition holds for `money`. */
  function LastMatch(steps: seq<Step>, money: int): (k: Option<nat>)
    ensures k.Some? ==> k.value < |steps| && money < steps[k.value].below
    ensures k.Some? ==> forall j :: k.value < j < |steps| ==> money >= steps[j].below
    ensures k.None? ==> forall j :: 0 <= j < |steps| ==> money >= steps[j].below
  {
    if steps == [] then None
    else if money < steps[|steps| - 1].below then Some(|steps| - 1)
    else LastMatch(steps[..|steps| - 1], money)
  }

  /** Runs the reassignments in order, from `current`. */
  function Cascade(steps: seq<Step>, current: Card, money: int): (r: Card)
    ensures r == match LastMatch(steps, money)
                 case None => current
                 case Some(k) => steps[k].card
  {
    if steps == [] then current
    else
      var next := if money < steps[0].below then steps[0].card else current;
      LastMatchOfTail(steps, money);
      Cascade(steps[1..], next, money)
  }

  /** The last matching step of `steps` is the last matching step of
      `steps[1..]`, shifted by one, or the first step when no later one
      matches. */
  lemma {:induction false} LastMatchOfTail(steps: seq<Step>, money: int)
    requires steps != []
    ensures LastMatch(steps, money) ==
      match LastMatch(steps[1..], money)
      case Some(k) => Some(k + 1)
      case None => if money < steps[0].below then Some(0) else None
  {
    var tail := steps[1..];
    if |steps| > 1 && money >= steps[|steps| - 1].below {
      assert steps[..|steps| - 1][1..] == tail[..|tail| - 1];
      LastMatchOfTail(steps[..|steps| - 1], money);
    }
  }

  /** The card `find_cards_to_buy` settles on: "Province" from 8 up, "Gold" for
      6 and 7, "Silver" from 3 to 5 and "Copper" below 3, negative amounts
      included. */
  function BuyTier(money: int): Card
  {
    if money >= 8 then "Province"
    else if money >= 6 then "Gold"
    else if money >= 3 then "Silver"
    else "Copper"
  }

  /** `find_cards_to_buy`: the list of cards to buy, which always holds exactly
      one card. */
  function FindCardsToBuy(money: int): (cards: seq<Card>)
    ensures |cards| == 1
    ensures cards == [BuyTier(money)]
    ensures money >= 8 ==> cards == ["Province"]
    ensures 6 <= money < 8 ==> cards == ["Gold"]
    ensures 3 <= money < 6 ==> cards == ["Silver"]
    ensures money < 3 ==> cards == ["Copper"]
  {
    LadderDecides(money);
    [Cascade(Ladder, Start, money)]
  }

  /** Running the four reassignments from "Province" settles on `BuyTier`. */
  lemma LadderDecides(money: int)
    ensures Cascade(Ladder, Start, money) == BuyTier(money)
  {
  }

  /** The reassignment at 5 (line 66) can never change the outcome: the ladder
      without it decides every amount the same way. */
  lemma SilverAtFiveIsRedundant(money: int)
    ensures Cascade(Ladder, Start, money) == Cascade(Ladder[..2] + Ladder[3..], Start, money)
  {
    var shorter := Ladder[..2] + Ladder[3..];
    assert shorter == [Step(8, "Gold"), Step(6, "Silver"), Step(3, "Copper")];
  }

  /** The order of the ladder's cards by price. */
  function Rank(card: Card): nat
  {
    if card == "Province" then 3 else if card == "Gold" then 2 else if card == "Silver" then 1 else 0
  }

  /** A larger amount never buys a cheaper card. */
  lemma BuyLadderIsMonotone(a: int, b: int)
    requires a <= b
    ensures Rank(FindCardsToBuy(a)[0]) <= Rank(FindCardsToBuy(b)[0])
  {
  }

}
