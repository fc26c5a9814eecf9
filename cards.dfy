/** The card catalogue of the client: the treasure values it knows, the two
    action cards it plays, and the starting deck it keeps at process scope
    (ai.py lines 12-17, 30 and 50). */
module Cards {

  /** The client identifies cards by their names only. */
  type Card = string

  /** `money_value_map`: the buying power of the three basic treasures. */
  const MoneyValueMap: map<Card, nat> := map["Copper" := 1, "Silver" := 2, "Gold" := 3]

  /** The buy phase plays a card exactly when it is one of these three names. */
  predicate IsTreasure(card: Card)
  {
    card in ["Copper", "Silver", "Gold"]
  }

  /** The action phase plays a card exactly when it is a Market or a Village. */
  predicate IsActionCard(card: Card)
  {
    card in ["Market", "Village"]
  }

  /** The value `money_value_map[card]` of a treasure card; the lookup is only
      made for cards that pass `IsTreasure`, so it never raises KeyError. */
  function MoneyValue(card: Card): (v: nat)
    requires IsTreasure(card)
    ensures card in MoneyValueMap && v == MoneyValueMap[card]
    ensures 1 <= v <= 3
    ensures card == "Copper" <==> v == 1
    ensures card == "Gold" <==> v == 3
  {
    MoneyValueMap[card]
  }

  /** Every name the buy phase plays has an entry in `money_value_map`, and
      nothing else has one. */
  lemma TreasuresAreExactlyTheValuedCards(card: Card)
    ensures IsTreasure(card) <==> card in MoneyValueMap
  {
  }

  /** `[card] * n` */
  function Repeat(card: Card, n: nat): (r: seq<Card>)
    ensures |r| == n
    ensures forall i :: 0 <= i < n ==> r[i] == card
  {
    if n == 0 then [] else [card] + Repeat(card, n - 1)
  }

  /** The process-wide deck the client starts from: seven Coppers followed by
      three Estates. */
  function InitialDeck(): (deck: seq<Card>)
    ensures |deck| == 10
    ensures forall i :: 0 <= i < 7 ==> deck[i] == "Copper"
    ensures forall i :: 7 <= i < 10 ==> deck[i] == "Estate"
  {
    Repeat("Copper", 7) + Repeat("Estate", 3)
  }

}
