// The fixed card configuration of the memory game: ten cards, five pairs.

module Cards {

  /** One card definition: a display name, an image path and the pair id it shares with its twin. */
  datatype Card = Card(name: string, img: string, id: nat)

  /** The canonical deck, in the order the game declares it. Twins sit next to each other. */
  const Deck: seq<Card> := [
    Card("card1", "images/distracted.png", 1),
    Card("card1", "images/distracted.png", 1),
    Card("card2", "images/drake.png", 2),
    Card("card2", "images/drake.png", 2),
    Card("card3", "images/fine.png", 3),
    Card("card3", "images/fine.png", 3),
    Card("card4", "images/rollsafe.png", 4),
    Card("card4", "images/rollsafe.png", 4),
    Card("card5", "images/success.png", 5),
    Card("card5", "images/success.png", 5)
  ]

  /** The number of pairs, `cardArray.length / 2`. */
  const Pairs: nat := |Deck| / 2

  /** The deck has ten cards, so five pairs. */
  lemma DeckSize()
    ensures |Deck| == 10 && Pairs == 5
  {
  }

  /** Slot `i` holds a card of pair `i / 2`: its id is `i / 2 + 1` and its name ends in that digit. */
  lemma DeckLayout(i: nat)
    requires i < |Deck|
    ensures Deck[i].id == i / 2 + 1
    ensures |Deck[i].name| == 5 && Deck[i].name[..4] == "card"
    ensures Deck[i].name[4] == "12345"[i / 2]
  {
  }

  /** Two slots of the canonical deck carry the same name exactly when they are twins. */
  lemma {:induction false} SameNameIffTwins(i: nat, j: nat)
    requires i < |Deck| && j < |Deck|
    ensures Deck[i].name == Deck[j].name <==> i / 2 == j / 2
    ensures Deck[i].name == Deck[j].name <==> Deck[i].id == Deck[j].id
  {
    DeckLayout(i);
    DeckLayout(j);
    if Deck[i].name == Deck[j].name {
      assert Deck[i].name[4] == Deck[j].name[4];
    }
  }
}
